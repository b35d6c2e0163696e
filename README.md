# Interview bot session model

A Dafny model of the session logic of the "Interview Bot" Streamlit page
(`app.py`, function `main()`). The page keeps an append-only list of chat
messages in its session state. It collects a candidate's intake form:
name, job description, resume upload, and experience with a unit. It
validates the form, then sends a hidden setup prompt to a language model
and stores the reply. After that, each chat input from the candidate is
appended to the list and the assistant messages are counted. Below the
configured `QUESTIONS_COUNT` the whole transcript is forwarded to the
model. At or above it, an analysis request listing the assistant messages
is appended and forwarded instead. The history display skips the setup
prompt.

Modules, leaves first:

- `Wrappers` (wrappers.dfy): `Option`.
- `Text` (text.dfy): Python's substring test `sub in s`, the decimal rendering an f-string gives an
  int, and joining the pieces of an f-string.
- `Messages` (messages.dfy): roles, stored messages, and the role/content payload sent to the model.
- `Transcript` (transcript.dfy): the assistant count, the assistant texts, and the display filter.
- `Prompts` (prompts.dfy): the intake form and its check, the setup prompt, and the analysis request.
- `Steps` (steps.dfy): the two handlers as pure transitions on the session state. The model's answer
  is an oracle argument, `Completed(text)` or `Failed`. This module also defines sequences of page
  interactions and the lemmas about them.
- `App` (app.dfy): class `Session`. Its fields are the session-state entries. Its methods `Submit`,
  `ChatTurn` and `Render` update these fields (or read them) in place. Each is proved to agree with
  the transition of the same name in `Steps`, or with `Transcript.Visible`.

Behaviour as the code has it, where it differs from the intended workflow:

- An accepted intake stores two messages: the setup prompt and the model's first reply.
- There is no finished state. Once the threshold is reached, every later chat input appends a new
  analysis request and asks the model again (`Steps.SummaryBranchSticky`).
- A failed model call is not rolled back. The setup prompt and the enabled chat flag stay after a
  failed first call. The candidate's message, and in the summary branch the analysis request, stay
  after a failed later call.
- The analysis request takes the job description and experience from the form values of the run
  that handles the chat input. It does not use a profile stored at intake.
- `QUESTIONS_COUNT` is not checked to be positive. With a count of 0 or less, the first chat input
  already goes to the summary (`Steps.NonPositiveCountSummarizesAtOnce`).
- The display hides every user message that contains "You are conducting an interview",
  including one the candidate typed.
- `show_error` is only ever set to false, so the timed error banner at its start is never shown
  (`Steps.RunAppends`).

## Model

| member | source | states |
|---|---|---|
| `Text.NatToString` | app.py:77 | the rendering of the experience number is a non-empty string of digits with no leading zero |
| `Text.ParseNatToString` | app.py:77 | reading the rendered experience number back gives the number: the rendering loses nothing |
| `Text.IntToString` | app.py:80 | the rendering of the question count is non-empty and starts with a minus sign exactly when the count is negative |
| `Text.ParseIntToString` | app.py:80 | the rendering of any question count, sign included, reads back as that count |
| `Text.ConcatContains` | app.py:73-83 | every piece of an f-string, literal or field, occurs in the finished string |
| `Messages.PayloadRoundTrip` | app.py:147 | the payload keeps every message, in order, with its role and content: decoding it gives the transcript back |
| `Messages.PayloadInjective` | app.py:157 | two transcripts that send the same payload are the same transcript |
| `Transcript.AssistantCountSnoc` | app.py:117-121 | appending a message raises the count by one exactly when it is an assistant message |
| `Transcript.AssistantCountAppend` | app.py:118-121 | the count of a concatenation is the sum of the counts of its parts |
| `Transcript.AssistantCountMonotone` | app.py:118-123 | extending the transcript never lowers the count |
| `Transcript.AssistantCountIsOccurrences` | app.py:118-121 | the count equals the number of assistant roles in the transcript and the number of assistant texts, and is at most the transcript length |
| `Transcript.AssistantContentsAppend` | app.py:139 | the assistant texts of a concatenation are those of each part, in order |
| `Transcript.AssistantContentsMembers` | app.py:139 | a text is listed exactly when an assistant message with that content is in the transcript |
| `Transcript.VisibleSnoc` | app.py:106-110 | one more message is drawn, at the end, exactly when it is not a user message containing the marker |
| `Transcript.VisibleAppend` | app.py:106-110 | the display of a concatenation is the display of each part, in order |
| `Transcript.VisibleMembers` | app.py:107-110 | a message is drawn exactly when it is in the transcript and is not hidden |
| `Transcript.VisibleKeepsAssistants` | app.py:107 | assistant messages are always drawn: the display has the same assistant texts, in order, and the same count |
| `Transcript.VisibleSkipsHiddenHead` | app.py:107-108 | a hidden first message leaves the display as if it were absent |
| `Prompts.SetupPromptContents` | app.py:71-84 | the setup prompt contains the name, the description, the experience value and unit, the resume text, the question count and the marker phrase |
| `Prompts.SetupPromptHidden` | app.py:74 | the setup prompt, stored as a user message, is always skipped by the display |
| `Prompts.BulletsAppend` | app.py:139 | joining the bullets of a concatenation joins those of each part, in order |
| `Prompts.BulletsContains` | app.py:139 | every listed text appears as the line `- text`, at the start of the list or right after a newline |
| `Prompts.SummaryPromptSnoc` | app.py:125-139 | the analysis request is the header when no assistant message exists; an assistant message adds its bullet at the end; a user message adds nothing |
| `Prompts.SummaryIgnoresUserText` | app.py:139 | transcripts with the same roles and the same assistant texts give the same analysis request, whatever the user messages say |
| `Prompts.SummaryPromptContents` | app.py:125-139 | the analysis request contains the description, the experience value and unit, and every assistant message as its own bullet line |
| `Steps.IntakeAcceptance` | app.py:60-66 | Submit calls the model exactly when name and description are non-empty, a resume is uploaded and the experience is positive; chat is enabled afterwards exactly when it already was or those four hold; with zero experience nothing is stored or sent |
| `Steps.UnreadableResumeAccepted` | app.py:17-26 | an unreadable resume does not block intake: chat is enabled, the model is called, and the stored setup prompt carries "No text found in resume" |
| `Steps.SubmitRejected` | app.py:60-101 | a rejected form leaves the messages and both flags unchanged and calls no model |
| `Steps.SubmitAccepted` | app.py:61-95 | an accepted form enables chat, keeps the old messages as a prefix, appends the setup prompt and then the reply, and sends exactly `[setup prompt]` to the model |
| `Steps.SubmitPromptContents` | app.py:63-84 | the prompt Submit stores and sends embeds every form field, the resume text and the question count, and is hidden from the display |
| `Steps.ChatIgnored` | app.py:113-114 | a chat input before a successful intake, or an empty one, changes nothing and calls no model |
| `Steps.SummaryBranchIff` | app.py:117-123 | the summary branch is taken exactly when chat is enabled, the input is non-empty, and the stored assistant count is at least the question count |
| `Steps.ChatQuestionBranch` | app.py:153-161 | below the threshold, exactly the user message and the reply are appended, and the whole transcript up to the user message is sent |
| `Steps.ChatSummaryBranch` | app.py:123-151 | at or above the threshold, exactly the user message, the analysis request and the reply are appended, and the whole transcript up to the analysis request is sent |
| `Steps.AnalysisIgnoresPrompt` | app.py:117-139 | the analysis request built after the candidate's message equals the one built before it |
| `Steps.NonPositiveCountSummarizesAtOnce` | app.py:123 | with a question count of 0 or less, every accepted chat input takes the summary branch |
| `Steps.StepAppends` | app.py:85-161 | one interaction only appends messages, never clears the chat flag, and never raises the error flag |
| `Steps.RunAppends` | app.py:60-161 | over any sequence of interactions the transcript only grows by appending, chat stays enabled, and the error flag stays false |
| `Steps.SummaryBranchSticky` | app.py:118-123 | once a chat input takes the summary branch, every later non-empty chat input does too |
| `Steps.StepKeepsReachable` | app.py:61-117 | each interaction keeps this invariant: chat is enabled exactly when messages exist, the first message is hidden, and the error flag is false |
| `Steps.RunKeepsReachable` | app.py:33-40 | from the state written on the first run, every sequence of interactions keeps that invariant |
| `Steps.ReachableHidesFirst` | app.py:105-110 | in every reachable state the display is the same as if the first message were absent |
| `Steps.ThreeQuestionInterview` | app.py:60-161 | with three questions: the first two answers get further questions, the third triggers the analysis, which lists exactly the three questions, and the verdict is stored last |
| `App.Session.constructor` | app.py:33-40 | a new session has no messages, chat disabled, no error, and the given question count |
| `App.Session.Submit` | app.py:60-101 | the new state and the messages sent are those of `Steps.Submit`; old messages stay a prefix |
| `App.Session.ChatTurn` | app.py:113-161 | the new state and the messages sent are those of `Steps.ChatTurn`; old messages stay a prefix |
| `App.Session.Render` | app.py:104-110 | the loop draws exactly `Visible(messages)`: every message in order except hidden ones |

## Left out

- Page rendering (`st.title`, the input widgets, `st.columns`, `st.chat_message`, `st.markdown`): UI.
  The form's widget values are an argument of each handler. The echo of the candidate's message at
  lines 115-116 is not modelled.
- The timed error banner (lines 44-47 and 99-101, with `time.sleep(3)`): timing and UI. The lemmas
  about `showError` show that lines 44-47 can never run.
- The OpenAI client and `st.write_stream` (lines 88-95, 145-161): foreign network and streaming calls.
  Each call is replaced by the messages it would send (a method's `request` result) and a `Completion`
  argument for its outcome. Text drawn on screen by a stream that later fails is not modelled.
- `extract_text_from_pdf` (lines 17-26) wraps PyPDF2. An uploaded file is represented by what reading
  it yields (`Extraction`), so a failure gives the sentinel text.
- Environment loading (lines 8-12): configuration. `QUESTIONS_COUNT` is a constructor argument. An
  unparsable value, which makes `int()` raise at import time, is not modelled.
- The top-level `except` and `print` (lines 163-165): the only exception source modelled is the model
  call (`Failed`). Its effect is that nothing further runs, with no rollback.
- Streamlit reruns: one method call stands for one run of the page handling one event. The model does
  not capture that the history is drawn at the start of a run not triggered by Submit (line 103),
  before that run's chat input is handled.
- No lemma characterises which analysis requests the display later hides. Such a request is hidden
  only if its description or an assistant text contains the marker phrase.
