/** The intake form, its validation, and the two instruction messages the
    app composes: the hidden interview-setup prompt and the final
    analysis request. */
module Prompts {
  import opened Wrappers
  import opened Text
  import opened Messages
  import opened Transcript

  datatype ExperienceUnit = Years | Months

  function UnitName(u: ExperienceUnit): string {
    match u
    case Years => "Years"
    case Months => "Months"
  }

  /** What reading the uploaded PDF yields: its text, or a failure the reader swallows. */
  datatype Extraction = Extracted(text: string) | Unreadable

  const NoTextSentinel: string := "No text found in resume"

  /** The resume text the setup prompt embeds: the extracted text, or the sentinel on failure. */
  function ResumeText(e: Extraction): (t: string)
    ensures e.Unreadable? ==> t == NoTextSentinel
    ensures e.Extracted? ==> t == e.text
  {
    match e
    case Extracted(text) => text
    case Unreadable => NoTextSentinel
  }

  /** The widget values of one run of the page: name, job description, the
      uploaded file (absent, or what extracting it yields), and the experience
      number input (minimum 0, step 1) with its unit. */
  datatype Form = Form(name: string, description: string, resume: Option<Extraction>,
                       experienceValue: nat, experienceUnit: ExperienceUnit)

  /** `name and description and resume and experience_value`, by Python truthiness:
      a string is true when non-empty, an upload when present, a number when non-zero. */
  predicate IntakeOk(f: Form) {
    f.name != "" && f.description != "" && f.resume != None && f.experienceValue != 0
  }

  /** The f-string `{experience_value} {experience_unit}`. */
  function ExperienceText(value: nat, unit: ExperienceUnit): string {
    NatToString(value) + " " + UnitName(unit)
  }

  const SetupIntro: string := " for the following candidate. Here is the candidate's information:\n- **Name**: "
  const SetupAfterName: string := "\n- **Job Description**: "
  const SetupAfterDescription: string := "\n- **Experience**: "
  const SetupAfterExperience: string := "\n- **Resume Text**: "
  const SetupAfterResume: string := "\n\nPlease create "
  const SetupTail: string :=
    " interview questions tailored to the candidate's experience and the provided job description.\n"
    + "Make sure to send the questions one after the other following a conversational style.\n"
    + "Focus on assessing the candidate's skills, qualifications, and fit for the role.\n"

  /** The pieces of the setup f-string, literal text and fields alternating. */
  function SetupParts(name: string, description: string, value: nat, unit: ExperienceUnit,
                      resumeText: string, questionsCount: int): seq<string>
  {
    ["\n", SetupMarker, SetupIntro, name, SetupAfterName, description, SetupAfterDescription,
     ExperienceText(value, unit), SetupAfterExperience, resumeText, SetupAfterResume,
     IntToString(questionsCount), SetupTail]
  }

  /** The first, hidden, user message: the interview instructions with the candidate's data. */
  function SetupPrompt(name: string, description: string, value: nat, unit: ExperienceUnit,
                       resumeText: string, questionsCount: int): string
  {
    Concat(SetupParts(name, description, value, unit, resumeText, questionsCount))
  }

  /** The setup prompt embeds every intake field and the question count, and carries the marker. */
  lemma SetupPromptContents(name: string, description: string, value: nat, unit: ExperienceUnit,
                            resumeText: string, questionsCount: int)
    ensures var p := SetupPrompt(name, description, value, unit, resumeText, questionsCount);
      Contains(p, name) && Contains(p, description) && Contains(p, ExperienceText(value, unit))
      && Contains(p, resumeText) && Contains(p, IntToString(questionsCount)) && Contains(p, SetupMarker)
  {
    var parts := SetupParts(name, description, value, unit, resumeText, questionsCount);
    ConcatContains(parts, 1);
    ConcatContains(parts, 3);
    ConcatContains(parts, 5);
    ConcatContains(parts, 7);
    ConcatContains(parts, 9);
    ConcatContains(parts, 11);
  }

  /** The setup prompt, sent as a user message, is always skipped by the history display. */
  lemma SetupPromptHidden(name: string, description: string, value: nat, unit: ExperienceUnit,
                          resumeText: string, questionsCount: int)
    ensures Hidden(Message(User, SetupPrompt(name, description, value, unit, resumeText, questionsCount)))
  {
    SetupPromptContents(name, description, value, unit, resumeText, questionsCount);
  }

  /** One line of the question list: `f"- {msg['content']}\n"`. */
  function Bullet(q: string): string {
    "- " + q + "\n"
  }

  /** `"".join(...)` of the bullets of `qs`, in order. */
  function Bullets(qs: seq<string>): string {
    if qs == [] then "" else Bullets(qs[..|qs| - 1]) + Bullet(qs[|qs| - 1])
  }

  /** The bullets of a concatenation are the bullets of each part, in order. */
  lemma {:induction false} BulletsAppend(a: seq<string>, b: seq<string>)
    ensures Bullets(a + b) == Bullets(a) + Bullets(b)
    decreases |b|
  {
    if b == [] {
      assert a + b == a;
    } else {
      var b' := b[..|b| - 1];
      assert (a + b)[..|a + b| - 1] == a + b';
      BulletsAppend(a, b');
    }
  }

  /** A non-empty list ends with the newline of its last bullet. */
  lemma BulletsEndWithNewline(qs: seq<string>)
    requires qs != []
    ensures var b := Bullets(qs); |b| > 0 && b[|b| - 1] == '\n'
  {
  }

  /** Each listed text appears as its own bullet line: at the start of the list or right after a newline. */
  lemma {:induction false} BulletsContains(qs: seq<string>, k: nat)
    requires k < |qs|
    ensures ContainsLine(Bullets(qs), Bullet(qs[k]))
    decreases |qs|
  {
    var init, last := qs[..|qs| - 1], qs[|qs| - 1];
    assert Bullets(qs) == Bullets(init) + Bullet(last);
    if k == |qs| - 1 {
      if init != [] {
        BulletsEndWithNewline(init);
      }
      LineInfix(Bullets(init), Bullet(last), "");
      assert Bullets(qs) == Bullets(init) + Bullet(last) + "";
    } else {
      assert init[k] == qs[k];
      BulletsContains(init, k);
      LineWidenRight(Bullets(init), Bullet(last), Bullet(qs[k]));
    }
  }

  const SummaryIntro: string :=
    "\nPlease review the interview questions below, the candidate's experience, and the job description provided. \n"
    + "Give an overall analysis of the candidate's suitability for the role, including:\n"
    + "1. A rating for the candidate's expertise in the technology stack.\n"
    + "2. A conclusion on whether the candidate is a suitable fit for the job based on their responses.\n\n"
    + "The analysis should be concise, clear, and easy to understand. Also include a thank you note at the end.\n\n"
    + "**Job Description**: "
  const SummaryAfterDescription: string := "\n**Candidate's Experience**: "
  const SummaryAfterExperience: string := "\n\nInterview Questions:\n"

  /** The fixed part of the analysis request, before the question list. */
  function SummaryHeader(description: string, value: nat, unit: ExperienceUnit): string {
    Concat([SummaryIntro, description, SummaryAfterDescription, ExperienceText(value, unit), SummaryAfterExperience])
  }

  /** The header ends with a newline, so the first bullet starts a line. */
  lemma SummaryHeaderEndsLine(description: string, value: nat, unit: ExperienceUnit)
    ensures var h := SummaryHeader(description, value, unit); |h| > 0 && h[|h| - 1] == '\n'
  {
    var parts := [SummaryIntro, description, SummaryAfterDescription, ExperienceText(value, unit), SummaryAfterExperience];
    assert parts[..4] + [SummaryAfterExperience] == parts;
    assert SummaryAfterExperience[|SummaryAfterExperience| - 1] == '\n';
  }

  /** The analysis request: the header, then one bullet per assistant message of the transcript. */
  function SummaryPrompt(description: string, value: nat, unit: ExperienceUnit, ms: seq<Message>): string {
    SummaryHeader(description, value, unit) + Bullets(AssistantContents(ms))
  }

  /** With no assistant messages the request is the header alone; an assistant message adds
      its bullet at the end; a user message adds nothing. */
  lemma SummaryPromptSnoc(description: string, value: nat, unit: ExperienceUnit, ms: seq<Message>, m: Message)
    ensures SummaryPrompt(description, value, unit, []) == SummaryHeader(description, value, unit)
    ensures SummaryPrompt(description, value, unit, ms + [m])
         == if m.role == Assistant then SummaryPrompt(description, value, unit, ms) + Bullet(m.content)
            else SummaryPrompt(description, value, unit, ms)
  {
    var qs := AssistantContents(ms);
    AssistantContentsSnoc(ms, m);
    if m.role == Assistant {
      assert (qs + [m.content])[..|qs|] == qs;
    } else {
      assert qs + [] == qs;
    }
  }

  /** The request depends on no user message's text: transcripts with the same roles and
      the same assistant texts yield the same request. */
  lemma {:induction false} SummaryIgnoresUserText(description: string, value: nat, unit: ExperienceUnit,
                                                  a: seq<Message>, b: seq<Message>)
    requires |a| == |b|
    requires forall i :: 0 <= i < |a| ==> a[i].role == b[i].role
    requires forall i :: 0 <= i < |a| && a[i].role == Assistant ==> a[i].content == b[i].content
    ensures SummaryPrompt(description, value, unit, a) == SummaryPrompt(description, value, unit, b)
    decreases |a|
  {
    if a != [] {
      var n := |a| - 1;
      SummaryIgnoresUserText(description, value, unit, a[..n], b[..n]);
      assert a == a[..n] + [a[n]];
      assert b == b[..n] + [b[n]];
      SummaryPromptSnoc(description, value, unit, a[..n], a[n]);
      SummaryPromptSnoc(description, value, unit, b[..n], b[n]);
    }
  }

  /** The request embeds the job description, the experience, and every assistant message as its own bullet line. */
  lemma SummaryPromptContents(description: string, value: nat, unit: ExperienceUnit, ms: seq<Message>, k: nat)
    requires k < |ms| && ms[k].role == Assistant
    ensures var p := SummaryPrompt(description, value, unit, ms);
      Contains(p, description) && Contains(p, ExperienceText(value, unit)) && ContainsLine(p, Bullet(ms[k].content))
  {
    var header := SummaryHeader(description, value, unit);
    var bullets := Bullets(AssistantContents(ms));
    var parts := [SummaryIntro, description, SummaryAfterDescription, ExperienceText(value, unit), SummaryAfterExperience];
    ConcatContains(parts, 1);
    ConcatContains(parts, 3);
    assert header + bullets == "" + header + bullets;
    ContainsWiden("", header, bullets, description);
    ContainsWiden("", header, bullets, ExperienceText(value, unit));
    AssistantContentsMembers(ms, ms[k].content);
    assert ms[k] == Message(Assistant, ms[k].content);
    var j :| 0 <= j < |AssistantContents(ms)| && AssistantContents(ms)[j] == ms[k].content;
    BulletsContains(AssistantContents(ms), j);
    SummaryHeaderEndsLine(description, value, unit);
    LineWidenLeft(header, bullets, Bullet(ms[k].content));
  }
}
