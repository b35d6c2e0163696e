/** The session's handlers as pure transitions on the session state: the
    Submit button (intake) and a chat input (question or summary turn).
    The language model is an oracle: the reply it gave, or a failure. */
module Steps {
  import opened Wrappers
  import opened Text
  import opened Messages
  import opened Transcript
  import opened Prompts

  /** What the streamed completion came to: the assembled reply, or an exception
      raised by the call or the stream (caught at the top of the page). */
  datatype Completion = Completed(text: string) | Failed

  /** The assistant message a completion appends: one when it completed, none when it failed. */
  function ReplyTurn(c: Completion): (r: seq<Message>)
    ensures |r| == if c.Completed? then 1 else 0
    ensures c.Completed? ==> r[0] == Message(Assistant, c.text)
  {
    if c.Completed? then [Message(Assistant, c.text)] else []
  }

  /** The session-state entries the page keeps across runs. */
  datatype State = State(messages: seq<Message>, inputSubmitted: bool, showError: bool)

  const Initial: State := State([], false, false)

  /** The state after a handler, and the messages it sent to the model (None: no call made). */
  datatype Outcome = Outcome(state: State, request: Option<seq<WireMessage>>)

  /** The setup message for the intake form. */
  function SetupMessage(f: Form, questionsCount: int): Message
    requires f.resume.Some?
  {
    Message(User, SetupPrompt(f.name, f.description, f.experienceValue, f.experienceUnit,
                              ResumeText(f.resume.value), questionsCount))
  }

  /** Pressing Submit. On a valid form: enable chat, append the setup prompt, send
      that prompt alone, append the reply. Otherwise nothing is stored. */
  function Submit(s: State, f: Form, reply: Completion, questionsCount: int): Outcome {
    if IntakeOk(f) then
      var setup := SetupMessage(f, questionsCount);
      Outcome(State(s.messages + [setup] + ReplyTurn(reply), true, false), Some(Payload([setup])))
    else
      Outcome(s, None)
  }

  /** The analysis request for the transcript `ms`, from the current form values. */
  function AnalysisMessage(f: Form, ms: seq<Message>): Message {
    Message(User, SummaryPrompt(f.description, f.experienceValue, f.experienceUnit, ms))
  }

  /** Entering `prompt` in the chat box. Ignored before intake or when empty. Otherwise
      the prompt is appended and the assistant messages counted; below the threshold
      the whole transcript is sent, at or above it the analysis request is appended
      first and sent with it. The reply is appended when it completed. */
  function ChatTurn(s: State, f: Form, prompt: string, reply: Completion, questionsCount: int): Outcome {
    if !s.inputSubmitted || prompt == "" then
      Outcome(s, None)
    else
      var withPrompt := s.messages + [Message(User, prompt)];
      if AssistantCount(withPrompt) >= questionsCount then
        var withAnalysis := withPrompt + [AnalysisMessage(f, withPrompt)];
        Outcome(s.(messages := withAnalysis + ReplyTurn(reply)), Some(Payload(withAnalysis)))
      else
        Outcome(s.(messages := withPrompt + ReplyTurn(reply)), Some(Payload(withPrompt)))
  }

  /** The chat input `prompt` takes the summary branch in state `s`. */
  predicate TakesSummaryBranch(s: State, prompt: string, questionsCount: int) {
    s.inputSubmitted && prompt != ""
    && AssistantCount(s.messages + [Message(User, prompt)]) >= questionsCount
  }

  // ---- Submit ----

  /** A rejected form stores nothing and calls nothing. */
  lemma SubmitRejected(s: State, f: Form, reply: Completion, questionsCount: int)
    requires !IntakeOk(f)
    ensures Submit(s, f, reply, questionsCount) == Outcome(s, None)
  {
  }

  /** Submit calls the model exactly when the name and the description are non-empty,
      a resume is uploaded and the experience is positive; with zero experience nothing
      is stored and nothing is sent. */
  lemma IntakeAcceptance(s: State, f: Form, reply: Completion, questionsCount: int)
    ensures Submit(s, f, reply, questionsCount).request.Some?
        <==> f.name != "" && f.description != "" && f.resume.Some? && f.experienceValue > 0
    ensures Submit(s, f, reply, questionsCount).state.inputSubmitted
        <==> s.inputSubmitted || (f.name != "" && f.description != "" && f.resume.Some? && f.experienceValue > 0)
    ensures f.experienceValue == 0 ==> Submit(s, f, reply, questionsCount) == Outcome(s, None)
  {
  }

  /** A resume that cannot be read does not block intake: the session is enabled and
      the stored setup prompt carries the "No text found in resume" sentinel. */
  lemma UnreadableResumeAccepted(s: State, f: Form, reply: Completion, questionsCount: int)
    requires f.name != "" && f.description != "" && f.experienceValue > 0
    requires f.resume == Some(Unreadable)
    ensures var o := Submit(s, f, reply, questionsCount);
      && o.state.inputSubmitted && o.request.Some?
      && Contains(o.state.messages[|s.messages|].content, NoTextSentinel)
  {
    SubmitAccepted(s, f, reply, questionsCount);
    SubmitPromptContents(f, questionsCount);
  }

  /** An accepted form appends the setup prompt and then the reply (two messages when
      the reply completed, the prompt alone when the call failed), enables chat, and
      sends exactly the setup prompt, whatever the history held before. */
  lemma SubmitAccepted(s: State, f: Form, reply: Completion, questionsCount: int)
    requires IntakeOk(f)
    ensures var o := Submit(s, f, reply, questionsCount);
      && o.state.inputSubmitted && !o.state.showError
      && |o.state.messages| == |s.messages| + (if reply.Completed? then 2 else 1)
      && s.messages <= o.state.messages
      && o.state.messages[|s.messages|] == SetupMessage(f, questionsCount)
      && (reply.Completed? ==> o.state.messages[|s.messages| + 1] == Message(Assistant, reply.text))
      && o.request == Some([WireMessage("user", SetupMessage(f, questionsCount).content)])
  {
    var setup := SetupMessage(f, questionsCount);
    assert Payload([setup])[0] == ToWire(setup);
    assert Payload([setup]) == [ToWire(setup)];
    assert ToWire(setup) == WireMessage("user", setup.content);
  }

  /** The setup prompt sent on Submit holds every intake field and the question count,
      and the display never draws it. */
  lemma SubmitPromptContents(f: Form, questionsCount: int)
    requires IntakeOk(f)
    ensures var c := SetupMessage(f, questionsCount).content;
      Contains(c, f.name) && Contains(c, f.description)
      && Contains(c, ExperienceText(f.experienceValue, f.experienceUnit))
      && Contains(c, ResumeText(f.resume.value)) && Contains(c, IntToString(questionsCount))
    ensures Hidden(SetupMessage(f, questionsCount))
  {
    SetupPromptContents(f.name, f.description, f.experienceValue, f.experienceUnit,
                        ResumeText(f.resume.value), questionsCount);
  }

  // ---- Chat turns ----

  /** Chat input before a successful intake, or an empty one, changes nothing. */
  lemma ChatIgnored(s: State, f: Form, prompt: string, reply: Completion, questionsCount: int)
    requires !s.inputSubmitted || prompt == ""
    ensures ChatTurn(s, f, prompt, reply, questionsCount) == Outcome(s, None)
  {
  }

  /** The branch is decided by the assistant messages already stored: the candidate's
      own message does not change the count. */
  lemma SummaryBranchIff(s: State, prompt: string, questionsCount: int)
    ensures TakesSummaryBranch(s, prompt, questionsCount)
        <==> s.inputSubmitted && prompt != "" && AssistantCount(s.messages) >= questionsCount
  {
    AssistantCountSnoc(s.messages, Message(User, prompt));
  }

  /** Below the threshold: the prompt and then the reply are appended, and the whole
      transcript up to the prompt is sent. */
  lemma ChatQuestionBranch(s: State, f: Form, prompt: string, reply: Completion, questionsCount: int)
    requires s.inputSubmitted && prompt != ""
    requires AssistantCount(s.messages) < questionsCount
    ensures var o := ChatTurn(s, f, prompt, reply, questionsCount);
      && o.state == s.(messages := s.messages + [Message(User, prompt)] + ReplyTurn(reply))
      && |o.state.messages| == |s.messages| + (if reply.Completed? then 2 else 1)
      && o.request == Some(Payload(s.messages + [Message(User, prompt)]))
  {
    SummaryBranchIff(s, prompt, questionsCount);
  }

  /** At or above the threshold: the prompt, the analysis request and the reply are
      appended, and the whole transcript up to the analysis request is sent. */
  lemma ChatSummaryBranch(s: State, f: Form, prompt: string, reply: Completion, questionsCount: int)
    requires s.inputSubmitted && prompt != ""
    requires AssistantCount(s.messages) >= questionsCount
    ensures var withPrompt := s.messages + [Message(User, prompt)];
      var o := ChatTurn(s, f, prompt, reply, questionsCount);
      && o.state == s.(messages := withPrompt + [AnalysisMessage(f, withPrompt)] + ReplyTurn(reply))
      && |o.state.messages| == |s.messages| + (if reply.Completed? then 3 else 2)
      && o.request == Some(Payload(withPrompt + [AnalysisMessage(f, withPrompt)]))
  {
    SummaryBranchIff(s, prompt, questionsCount);
  }

  /** The analysis request lists the assistant texts of the transcript and nothing the
      candidate typed: it equals the request built from the transcript before the prompt. */
  lemma AnalysisIgnoresPrompt(s: State, f: Form, prompt: string)
    ensures AnalysisMessage(f, s.messages + [Message(User, prompt)]) == AnalysisMessage(f, s.messages)
  {
    SummaryPromptSnoc(f.description, f.experienceValue, f.experienceUnit, s.messages, Message(User, prompt));
  }

  /** A question count that is not positive sends the very first chat input to the summary. */
  lemma NonPositiveCountSummarizesAtOnce(s: State, prompt: string, questionsCount: int)
    requires questionsCount <= 0
    requires s.inputSubmitted && prompt != ""
    ensures TakesSummaryBranch(s, prompt, questionsCount)
  {
  }

  // ---- Traces of page interactions ----

  /** One interaction with the page: a press of Submit, or a chat input. */
  datatype Event =
    | SubmitPressed(form: Form, reply: Completion)
    | ChatEntered(form: Form, prompt: string, reply: Completion)

  function Step(s: State, e: Event, questionsCount: int): Outcome {
    match e
    case SubmitPressed(f, reply) => Submit(s, f, reply, questionsCount)
    case ChatEntered(f, prompt, reply) => ChatTurn(s, f, prompt, reply, questionsCount)
  }

  /** The state after the interactions `es`, one at a time, in order. */
  function Run(s: State, es: seq<Event>, questionsCount: int): State
    decreases |es|
  {
    if es == [] then s else Run(Step(s, es[0], questionsCount).state, es[1..], questionsCount)
  }

  /** Each interaction only appends: the old transcript is a prefix of the new, the
      chat stays enabled once enabled, and the error flag is never raised. */
  lemma StepAppends(s: State, e: Event, questionsCount: int)
    ensures var t := Step(s, e, questionsCount).state;
      s.messages <= t.messages && (s.inputSubmitted ==> t.inputSubmitted) && (!s.showError ==> !t.showError)
  {
  }

  /** Over any sequence of interactions the transcript only grows, no message is removed
      or edited, chat stays enabled, and the error banner is never shown. */
  lemma {:induction false} RunAppends(s: State, es: seq<Event>, questionsCount: int)
    ensures var t := Run(s, es, questionsCount);
      s.messages <= t.messages && (s.inputSubmitted ==> t.inputSubmitted) && (!s.showError ==> !t.showError)
    decreases |es|
  {
    if es != [] {
      StepAppends(s, es[0], questionsCount);
      RunAppends(Step(s, es[0], questionsCount).state, es[1..], questionsCount);
    }
  }

  /** Once one chat input has taken the summary branch, every later chat input does too,
      whatever happens in between: there is no state in which questioning resumes or stops. */
  lemma SummaryBranchSticky(s: State, f: Form, prompt: string, reply: Completion,
                            es: seq<Event>, later: string, questionsCount: int)
    requires TakesSummaryBranch(s, prompt, questionsCount)
    requires later != ""
    ensures TakesSummaryBranch(Run(ChatTurn(s, f, prompt, reply, questionsCount).state, es, questionsCount),
                               later, questionsCount)
  {
    var s1 := ChatTurn(s, f, prompt, reply, questionsCount).state;
    var t := Run(s1, es, questionsCount);
    SummaryBranchIff(s, prompt, questionsCount);
    StepAppends(s, ChatEntered(f, prompt, reply), questionsCount);
    RunAppends(s1, es, questionsCount);
    AssistantCountMonotone(s.messages, t.messages);
    SummaryBranchIff(t, later, questionsCount);
  }

  /** What holds of every state the page can reach: chat is enabled exactly when the
      transcript is non-empty, and then its first message is a hidden setup prompt. */
  predicate Reachable(s: State) {
    && (s.inputSubmitted <==> s.messages != [])
    && (s.messages != [] ==> Hidden(s.messages[0]))
    && !s.showError
  }

  lemma StepKeepsReachable(s: State, e: Event, questionsCount: int)
    requires Reachable(s)
    ensures Reachable(Step(s, e, questionsCount).state)
  {
    match e
    case SubmitPressed(f, reply) =>
      if IntakeOk(f) {
        SubmitPromptContents(f, questionsCount);
      }
    case ChatEntered(f, prompt, reply) =>
  }

  /** From the fresh page, whatever the visitor does, the first stored message is the
      setup prompt, so the display never draws it. */
  lemma {:induction false} RunKeepsReachable(s: State, es: seq<Event>, questionsCount: int)
    requires Reachable(s)
    ensures Reachable(Run(s, es, questionsCount))
    decreases |es|
  {
    if es != [] {
      StepKeepsReachable(s, es[0], questionsCount);
      RunKeepsReachable(Step(s, es[0], questionsCount).state, es[1..], questionsCount);
    }
  }

  /** Every reachable transcript displays as if its first message were absent. */
  lemma ReachableHidesFirst(es: seq<Event>, questionsCount: int)
    ensures var t := Run(Initial, es, questionsCount);
      Reachable(t) && (t.messages != [] ==> Visible(t.messages) == Visible(t.messages[1..]))
  {
    RunKeepsReachable(Initial, es, questionsCount);
    var t := Run(Initial, es, questionsCount);
    if t.messages != [] {
      VisibleSkipsHiddenHead(t.messages);
    }
  }

  // ---- A whole interview ----

  /** With a threshold of three: the reply to Submit asks the first question, the first
      two answers are each followed by a further question, and the third answer triggers
      the analysis request, which lists exactly the three questions and none of the answers. */
  lemma ThreeQuestionInterview(f: Form, q1: string, q2: string, q3: string,
                               a1: string, a2: string, a3: string, verdict: string)
    requires IntakeOk(f) && a1 != "" && a2 != "" && a3 != ""
    ensures var s0 := Submit(Initial, f, Completed(q1), 3).state;
      var s1 := ChatTurn(s0, f, a1, Completed(q2), 3).state;
      var s2 := ChatTurn(s1, f, a2, Completed(q3), 3).state;
      var s3 := ChatTurn(s2, f, a3, Completed(verdict), 3).state;
      && !TakesSummaryBranch(s0, a1, 3) && !TakesSummaryBranch(s1, a2, 3) && TakesSummaryBranch(s2, a3, 3)
      && |s3.messages| == 9
      && s3.messages[7] == Message(User, SummaryHeader(f.description, f.experienceValue, f.experienceUnit)
                                         + Bullet(q1) + Bullet(q2) + Bullet(q3))
      && s3.messages[8] == Message(Assistant, verdict)
  {
    var setup := SetupMessage(f, 3);
    var m0 := [setup, Message(Assistant, q1)];
    var m1 := m0 + [Message(User, a1), Message(Assistant, q2)];
    var m2 := m1 + [Message(User, a2), Message(Assistant, q3)];
    var withPrompt := m2 + [Message(User, a3)];
    InterviewTranscript(setup, q1, q2, q3, a1, a2, a3);
    var s0 := Submit(Initial, f, Completed(q1), 3).state;
    assert s0 == State(m0, true, false);
    SummaryBranchIff(s0, a1, 3);
    ChatQuestionBranch(s0, f, a1, Completed(q2), 3);
    var s1 := ChatTurn(s0, f, a1, Completed(q2), 3).state;
    assert s1.messages == m1;
    SummaryBranchIff(s1, a2, 3);
    ChatQuestionBranch(s1, f, a2, Completed(q3), 3);
    var s2 := ChatTurn(s1, f, a2, Completed(q3), 3).state;
    assert s2.messages == m2;
    SummaryBranchIff(s2, a3, 3);
    ChatSummaryBranch(s2, f, a3, Completed(verdict), 3);
    BulletsOfThree(q1, q2, q3);
  }

  /** The counts and assistant texts along the three-question interview. */
  lemma InterviewTranscript(setup: Message, q1: string, q2: string, q3: string, a1: string, a2: string, a3: string)
    requires setup.role == User
    ensures var m0 := [setup, Message(Assistant, q1)];
      var m1 := m0 + [Message(User, a1), Message(Assistant, q2)];
      var m2 := m1 + [Message(User, a2), Message(Assistant, q3)];
      AssistantCount(m0) == 1 && AssistantCount(m1) == 2 && AssistantCount(m2) == 3
      && AssistantContents(m2 + [Message(User, a3)]) == [q1, q2, q3]
  {
    var m0 := [setup, Message(Assistant, q1)];
    var m1 := m0 + [Message(User, a1), Message(Assistant, q2)];
    var m2 := m1 + [Message(User, a2), Message(Assistant, q3)];
    AssistantContentsSnoc([], setup);
    assert [setup] == [] + [setup];
    AssistantContentsSnoc([setup], Message(Assistant, q1));
    assert m0 == [setup] + [Message(Assistant, q1)];
    AssistantContentsSnoc(m0, Message(User, a1));
    AssistantContentsSnoc(m0 + [Message(User, a1)], Message(Assistant, q2));
    assert m1 == m0 + [Message(User, a1)] + [Message(Assistant, q2)];
    AssistantContentsSnoc(m1, Message(User, a2));
    AssistantContentsSnoc(m1 + [Message(User, a2)], Message(Assistant, q3));
    assert m2 == m1 + [Message(User, a2)] + [Message(Assistant, q3)];
    AssistantContentsSnoc(m2, Message(User, a3));
    AssistantCountIsOccurrences(m0);
    AssistantCountIsOccurrences(m1);
    AssistantCountIsOccurrences(m2);
  }

  lemma BulletsOfThree(q1: string, q2: string, q3: string)
    ensures Bullets([q1, q2, q3]) == Bullet(q1) + Bullet(q2) + Bullet(q3)
  {
    assert [q1][..0] == [];
    assert Bullets([q1]) == Bullet(q1);
    assert [q1, q2][..1] == [q1];
    assert Bullets([q1, q2]) == Bullet(q1) + Bullet(q2);
    assert [q1, q2, q3][..2] == [q1, q2];
  }
}
