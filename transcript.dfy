/** What the app derives from the stored message list: the assistant-turn
    count that drives the switch to the summary, the assistant texts the
    summary lists, and the filtered history it redraws on screen. */
module Transcript {
  import opened Text
  import opened Messages

  /** The phrase by which the display loop recognises the hidden setup prompt. */
  const SetupMarker: string := "You are conducting an interview"

  /** A message the history display skips: a user message containing the marker. */
  predicate Hidden(m: Message) {
    m.role == User && Contains(m.content, SetupMarker)
  }

  /** `sum(1 for msg in messages if msg["role"] == "assistant")`. */
  function AssistantCount(ms: seq<Message>): nat {
    if ms == [] then 0
    else AssistantCount(ms[..|ms| - 1]) + (if ms[|ms| - 1].role == Assistant then 1 else 0)
  }

  /** The contents of the assistant messages, in transcript order. */
  function AssistantContents(ms: seq<Message>): seq<string> {
    if ms == [] then []
    else AssistantContents(ms[..|ms| - 1]) + (if ms[|ms| - 1].role == Assistant then [ms[|ms| - 1].content] else [])
  }

  /** The messages the history display draws, in order. */
  function Visible(ms: seq<Message>): seq<Message> {
    if ms == [] then []
    else Visible(ms[..|ms| - 1]) + (if Hidden(ms[|ms| - 1]) then [] else [ms[|ms| - 1]])
  }

  /** The roles along the transcript. */
  function Roles(ms: seq<Message>): seq<Role> {
    seq(|ms|, i requires 0 <= i < |ms| => ms[i].role)
  }

  lemma AssistantCountSnoc(ms: seq<Message>, m: Message)
    ensures AssistantCount(ms + [m]) == AssistantCount(ms) + (if m.role == Assistant then 1 else 0)
  {
    assert (ms + [m])[..|ms|] == ms;
  }

  /** The count of a concatenation is the sum of the counts. */
  lemma {:induction false} AssistantCountAppend(a: seq<Message>, b: seq<Message>)
    ensures AssistantCount(a + b) == AssistantCount(a) + AssistantCount(b)
    decreases |b|
  {
    if b == [] {
      assert a + b == a;
    } else {
      var b' := b[..|b| - 1];
      assert a + b == (a + b') + [b[|b| - 1]];
      assert b == b' + [b[|b| - 1]];
      AssistantCountAppend(a, b');
      AssistantCountSnoc(a + b', b[|b| - 1]);
      AssistantCountSnoc(b', b[|b| - 1]);
    }
  }

  /** The count never decreases as the transcript is extended. */
  lemma AssistantCountMonotone(a: seq<Message>, b: seq<Message>)
    requires a <= b
    ensures AssistantCount(a) <= AssistantCount(b)
  {
    assert b == a + b[|a|..];
    AssistantCountAppend(a, b[|a|..]);
  }

  /** Reference definition: the count is the number of occurrences of the assistant role. */
  lemma {:induction false} AssistantCountIsOccurrences(ms: seq<Message>)
    ensures AssistantCount(ms) == multiset(Roles(ms))[Assistant]
    ensures AssistantCount(ms) == |AssistantContents(ms)|
    ensures AssistantCount(ms) <= |ms|
  {
    if ms != [] {
      var init := ms[..|ms| - 1];
      AssistantCountIsOccurrences(init);
      assert Roles(ms) == Roles(init) + [ms[|ms| - 1].role];
    }
  }

  lemma AssistantContentsSnoc(ms: seq<Message>, m: Message)
    ensures AssistantContents(ms + [m]) == AssistantContents(ms) + (if m.role == Assistant then [m.content] else [])
  {
    assert (ms + [m])[..|ms|] == ms;
  }

  /** The assistant texts of a concatenation are those of each part, in order. */
  lemma {:induction false} AssistantContentsAppend(a: seq<Message>, b: seq<Message>)
    ensures AssistantContents(a + b) == AssistantContents(a) + AssistantContents(b)
    decreases |b|
  {
    if b == [] {
      assert a + b == a;
    } else {
      var b' := b[..|b| - 1];
      var m := b[|b| - 1];
      assert a + b == (a + b') + [m];
      assert b == b' + [m];
      AssistantContentsAppend(a, b');
      AssistantContentsSnoc(a + b', m);
      AssistantContentsSnoc(b', m);
    }
  }

  /** Every assistant text comes from an assistant message, and every assistant message is listed. */
  lemma {:induction false} AssistantContentsMembers(ms: seq<Message>, c: string)
    ensures c in AssistantContents(ms) <==> Message(Assistant, c) in ms
  {
    if ms != [] {
      var init := ms[..|ms| - 1];
      AssistantContentsMembers(init, c);
      assert ms == init + [ms[|ms| - 1]];
    }
  }

  /** One more message is drawn exactly when it is not hidden. */
  lemma VisibleSnoc(ms: seq<Message>, m: Message)
    ensures Visible(ms + [m]) == if Hidden(m) then Visible(ms) else Visible(ms) + [m]
  {
    assert (ms + [m])[..|ms|] == ms;
  }

  /** Filtering a concatenation filters each part, keeping the order. */
  lemma {:induction false} VisibleAppend(a: seq<Message>, b: seq<Message>)
    ensures Visible(a + b) == Visible(a) + Visible(b)
    decreases |b|
  {
    if b == [] {
      assert a + b == a;
    } else {
      var b' := b[..|b| - 1];
      var m := b[|b| - 1];
      assert a + b == (a + b') + [m];
      assert b == b' + [m];
      VisibleAppend(a, b');
      VisibleSnoc(a + b', m);
      VisibleSnoc(b', m);
    }
  }

  /** A message is drawn exactly when it is in the transcript and is not hidden. */
  lemma {:induction false} VisibleMembers(ms: seq<Message>, m: Message)
    ensures m in Visible(ms) <==> m in ms && !Hidden(m)
  {
    if ms != [] {
      var init := ms[..|ms| - 1];
      VisibleMembers(init, m);
      assert ms == init + [ms[|ms| - 1]];
    }
  }

  /** Assistant messages are never filtered out: the drawn history has the same assistant texts, in order. */
  lemma {:induction false} VisibleKeepsAssistants(ms: seq<Message>)
    ensures AssistantContents(Visible(ms)) == AssistantContents(ms)
    ensures AssistantCount(Visible(ms)) == AssistantCount(ms)
  {
    if ms != [] {
      var init := ms[..|ms| - 1];
      var m := ms[|ms| - 1];
      VisibleKeepsAssistants(init);
      if Hidden(m) {
        assert Visible(ms) == Visible(init);
      } else {
        assert Visible(ms) == Visible(init) + [m];
        AssistantContentsSnoc(Visible(init), m);
        AssistantCountSnoc(Visible(init), m);
      }
    }
  }

  /** A hidden first message leaves the display as if it were absent. */
  lemma VisibleSkipsHiddenHead(ms: seq<Message>)
    requires ms != [] && Hidden(ms[0])
    ensures Visible(ms) == Visible(ms[1..])
  {
    assert ms == [ms[0]] + ms[1..];
    VisibleAppend([ms[0]], ms[1..]);
    VisibleSnoc([], ms[0]);
    assert [] + [ms[0]] == [ms[0]];
  }
}
