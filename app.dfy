/** The page's session state as an object updated in place, one method per
    handler of `main()`, each proved to move the state exactly as the pure
    transition of the same name in module Steps does. */
module App {
  import opened Wrappers
  import Text
  import opened Messages
  import opened Transcript
  import opened Prompts
  import Steps

  class Session {
    /** `st.session_state.messages`, appended to in place. */
    var messages: seq<Message>
    /** `st.session_state.input_submitted`: whether the chat input is live. */
    var inputSubmitted: bool
    /** `st.session_state.show_error`. */
    var showError: bool
    /** `QUESTIONS_COUNT`, read once from the environment. */
    const questionsCount: int

    function State(): Steps.State
      reads this
    {
      Steps.State(messages, inputSubmitted, showError)
    }

    /** The first run of the page initialises the session entries. */
    constructor (questionsCount: int)
      ensures State() == Steps.Initial && this.questionsCount == questionsCount
    {
      messages := [];
      inputSubmitted := false;
      showError := false;
      this.questionsCount := questionsCount;
    }

    /** The Submit button: validate the form, then append the setup prompt, send it
        alone to the model and append the reply. Returns the messages sent, if any. */
    method Submit(form: Form, reply: Steps.Completion) returns (request: Option<seq<WireMessage>>)
      modifies this
      ensures Steps.Outcome(State(), request) == Steps.Submit(old(State()), form, reply, questionsCount)
      ensures old(messages) <= messages
    {
      request := None;
      if IntakeOk(form) {
        var pdfText := ResumeText(form.resume.value);
        inputSubmitted := true;
        showError := false;
        var initial := Message(User, SetupPrompt(form.name, form.description, form.experienceValue,
                                                 form.experienceUnit, pdfText, questionsCount));
        messages := messages + [initial];
        request := Some(Payload([initial]));
        if reply.Completed? {
          messages := messages + [Message(Assistant, reply.text)];
        }
      }
    }

    /** A chat input: append it, count the assistant messages, and either forward the
        transcript or append the analysis request and forward that; then append the reply. */
    method ChatTurn(form: Form, prompt: string, reply: Steps.Completion) returns (request: Option<seq<WireMessage>>)
      modifies this
      ensures Steps.Outcome(State(), request) == Steps.ChatTurn(old(State()), form, prompt, reply, questionsCount)
      ensures old(messages) <= messages
    {
      request := None;
      if inputSubmitted && prompt != "" {
        messages := messages + [Message(User, prompt)];
        var assistantQuestionCount := AssistantCount(messages);
        if assistantQuestionCount >= questionsCount {
          var analysis := Message(User, SummaryPrompt(form.description, form.experienceValue,
                                                      form.experienceUnit, messages));
          messages := messages + [analysis];
        }
        request := Some(Payload(messages));
        if reply.Completed? {
          messages := messages + [Message(Assistant, reply.text)];
        }
      }
    }

    /** The history display: every stored message in order, skipping hidden setup prompts. */
    method Render() returns (shown: seq<Message>)
      ensures shown == Visible(messages)
    {
      shown := [];
      for i := 0 to |messages|
        invariant shown == Visible(messages[..i])
      {
        var msg := messages[i];
        assert messages[..i + 1] == messages[..i] + [msg];
        VisibleSnoc(messages[..i], msg);
        if msg.role == User && Text.Contains(msg.content, SetupMarker) {
          continue;
        }
        shown := shown + [msg];
      }
      assert messages[..|messages|] == messages;
    }
  }
}
