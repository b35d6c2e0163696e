/** Chat messages as the app stores them in its session state, and the
    role/content dictionaries it sends to the chat-completions endpoint. */
module Messages {
  import opened Wrappers

  datatype Role = User | Assistant

  /** One transcript entry: the `{"role": ..., "content": ...}` dictionary. */
  datatype Message = Message(role: Role, content: string)

  /** A message in the form the completion endpoint receives it: the role as its wire name. */
  datatype WireMessage = WireMessage(role: string, content: string)

  function RoleName(r: Role): string {
    match r
    case User => "user"
    case Assistant => "assistant"
  }

  /** The role a wire name stands for, if any. */
  function ParseRole(name: string): (r: Option<Role>)
    ensures r.Some? <==> name == "user" || name == "assistant"
    ensures r.Some? ==> RoleName(r.value) == name
  {
    if name == "user" then Some(User)
    else if name == "assistant" then Some(Assistant)
    else None
  }

  function ToWire(m: Message): WireMessage {
    WireMessage(RoleName(m.role), m.content)
  }

  /** The list comprehension `[{"role": m["role"], "content": m["content"]} for m in messages]`. */
  function Payload(ms: seq<Message>): (p: seq<WireMessage>)
    ensures |p| == |ms|
  {
    seq(|ms|, i requires 0 <= i < |ms| => ToWire(ms[i]))
  }

  /** Reads a payload back into transcript messages; fails on an unknown role name. */
  function FromPayload(p: seq<WireMessage>): (r: Option<seq<Message>>)
    ensures r.Some? ==> |r.value| == |p|
  {
    if p == [] then Some([])
    else
      match ParseRole(p[0].role)
      case None => None
      case Some(role) =>
        match FromPayload(p[1..])
        case None => None
        case Some(rest) => Some([Message(role, p[0].content)] + rest)
  }

  /** The payload keeps every message, in order, with its role and its content. */
  lemma {:induction false} PayloadRoundTrip(ms: seq<Message>)
    ensures FromPayload(Payload(ms)) == Some(ms)
  {
    if ms != [] {
      assert Payload(ms)[1..] == Payload(ms[1..]);
      PayloadRoundTrip(ms[1..]);
      assert ms == [ms[0]] + ms[1..];
    }
  }

  /** Two transcripts with the same payload are the same transcript. */
  lemma PayloadInjective(a: seq<Message>, b: seq<Message>)
    requires Payload(a) == Payload(b)
    ensures a == b
  {
    PayloadRoundTrip(a);
    PayloadRoundTrip(b);
  }
}
