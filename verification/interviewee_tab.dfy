/**
 * The interviewee tab's onboarding: which contact fields the resume did not yield, the
 * form that asks for them, the creation of the candidate record and its welcome message,
 * and the effect that chooses between the upload step and the interview.
 * `Date.now()` is the `now` parameter; the candidate's id is its decimal rendering, as
 * `Date.now().toString()` gives.
 */
module IntervieweeTab {
  import opened Wrappers
  import opened Text
  import opened Types
  import opened Store
  import opened ResumeParser

  datatype Field = NameField | EmailField | PhoneField

  datatype Step = Upload | Info | Interview

  datatype FormData = FormData(name: string, email: string, phone: string)

  datatype TabState = TabState(
    step: Step,
    missingFields: seq<Field>,
    form: FormData,
    resumeData: Option<ExtractedInfo>,
    hasShownWelcomeBack: bool)

  const InitialTab := TabState(Upload, [], FormData("", "", ""), None, false)

  function Rank(f: Field): nat {
    match f
    case NameField => 0
    case EmailField => 1
    case PhoneField => 2
  }

  function Extracted(info: ExtractedInfo, f: Field): Option<string> {
    match f
    case NameField => info.name
    case EmailField => info.email
    case PhoneField => info.phone
  }

  /** JavaScript truthiness of an optional string: absent and empty are both falsy. */
  predicate Present(v: Option<string>) {
    v.Some? && v.value != ""
  }

  /** The fields the resume did not yield, in the order name, email, phone. */
  function MissingFields(info: ExtractedInfo): (r: seq<Field>)
    ensures forall f :: f in r <==> !Present(Extracted(info, f))
    ensures forall i, j :: 0 <= i < j < |r| ==> Rank(r[i]) < Rank(r[j])
  {
    (if Present(info.name) then [] else [NameField])
    + (if Present(info.email) then [] else [EmailField])
    + (if Present(info.phone) then [] else [PhoneField])
  }

  // ---------------------------------------------------------------------------------------
  // The candidate record

  /** The resume part of the record, from the parser's output and the file's name. */
  function ToResumeData(info: ExtractedInfo, fileName: Option<string>): (d: ResumeData)
    ensures d.skills == info.skills && d.experience == info.experience
    ensures d.projects == info.projects && d.technologies == info.technologies
    ensures d.text == info.text && d.fileName == fileName
  {
    ResumeData(info.skills, info.experience, info.projects, info.technologies, info.text, fileName)
  }

  /**
   * A candidate as `createCandidate` builds it: nothing answered or scored yet, pending,
   * both flags lowered, and a file name only when a file was given.
   */
  function NewCandidate(now: nat, name: string, email: string, phone: string,
                        fileName: Option<string>, resume: Option<ExtractedInfo>): (c: Candidate)
    ensures c.id == NatToString(now) && c.createdAt == now
    ensures c.name == name && c.email == email && c.phone == phone
    ensures c.score == 0 && c.summary == "" && c.status == Pending
    ensures c.currentQuestionIndex == 0 && c.answers == [] && c.chatHistory == []
    ensures c.hasSeenWelcome == Some(false) && c.hasBeenPromptedToStart == Some(false)
    ensures c.resumeData.Some? <==> resume.Some?
    ensures c.resumeData.Some? ==> c.resumeData.value.fileName == fileName
    ensures Lag(c) == 0 && c.completedAt.None?
  {
    Candidate(
      NatToString(now), name, email, phone,
      if resume.Some? then Some(ToResumeData(resume.value, fileName)) else None,
      0, "", Pending, now, None, 0, [], [], Some(false), Some(false))
  }

  /** The store after `addCandidate` and `setCurrentCandidate`: appended and made current. */
  function CreateCandidate(s: InterviewState, c: Candidate): (r: InterviewState)
    ensures r.candidates == s.candidates + [c]
    ensures r.currentCandidate == Some(c)
    ensures r.(candidates := s.candidates, currentCandidate := s.currentCandidate) == s
  {
    SetCurrentCandidate(AddCandidate(s, c), c)
  }

  // ---------------------------------------------------------------------------------------
  // Handlers

  /**
   * `handleResumeUploaded`: with every contact field present the candidate is created and
   * the interview shown; otherwise the form opens, prefilled, and the store is untouched.
   */
  function HandleResumeUploaded(t: TabState, s: InterviewState, info: ExtractedInfo, fileName: string, now: nat)
    : (r: (TabState, InterviewState))
    ensures r.0.resumeData == Some(info)
    ensures r.0.form == FormData(info.name.GetOr(""), info.email.GetOr(""), info.phone.GetOr(""))
    ensures |MissingFields(info)| > 0 ==> r.0.step == Info && r.0.missingFields == MissingFields(info) && r.1 == s
    ensures |MissingFields(info)| == 0 ==>
      (r.0.step == Interview &&
       r.1 == CreateCandidate(s, NewCandidate(now, info.name.value, info.email.value, info.phone.value, Some(fileName), Some(info))))
  {
    var form := FormData(info.name.GetOr(""), info.email.GetOr(""), info.phone.GetOr(""));
    var missing := MissingFields(info);
    var t1 := t.(resumeData := Some(info), form := form);
    if |missing| > 0 then
      (t1.(missingFields := missing, step := Info), s)
    else
      assert NameField !in missing && EmailField !in missing && PhoneField !in missing;
      var c := NewCandidate(now, info.name.value, info.email.value, info.phone.value, Some(fileName), Some(info));
      (t1.(step := Interview), CreateCandidate(s, c))
  }

  /** Typing into one of the form's inputs. */
  function EditField(t: TabState, f: Field, value: string): (r: TabState)
    ensures f == NameField ==> r.form == t.form.(name := value)
    ensures f == EmailField ==> r.form == t.form.(email := value)
    ensures f == PhoneField ==> r.form == t.form.(phone := value)
    ensures r.(form := t.form) == t
  {
    match f
    case NameField => t.(form := t.form.(name := value))
    case EmailField => t.(form := t.form.(email := value))
    case PhoneField => t.(form := t.form.(phone := value))
  }

  /**
   * `handleInfoSubmit`: rejected while any trimmed field is empty; otherwise the candidate
   * is created from the trimmed values and the stored resume, with no file name.
   */
  function HandleInfoSubmit(t: TabState, s: InterviewState, now: nat): (r: (TabState, InterviewState))
    ensures IsBlank(t.form.name) || IsBlank(t.form.email) || IsBlank(t.form.phone) ==> r == (t, s)
    ensures !(IsBlank(t.form.name) || IsBlank(t.form.email) || IsBlank(t.form.phone)) ==>
      r.0.step == Interview && r.1.currentCandidate.Some? &&
      var c := r.1.currentCandidate.value;
      && c.name == Trim(t.form.name) && c.email == Trim(t.form.email) && c.phone == Trim(t.form.phone)
      && !IsBlank(c.name) && !IsBlank(c.email) && !IsBlank(c.phone)
      && r.1.candidates == s.candidates + [c]
      && (c.resumeData.Some? <==> t.resumeData.Some?)
      && (c.resumeData.Some? ==> c.resumeData.value.fileName.None?)
  {
    var f := t.form;
    if IsBlank(f.name) || IsBlank(f.email) || IsBlank(f.phone) then (t, s)
    else
      TrimIdempotent(f.name);
      TrimIdempotent(f.email);
      TrimIdempotent(f.phone);
      var c := NewCandidate(now, Trim(f.name), Trim(f.email), Trim(f.phone), None, t.resumeData);
      (t.(step := Interview), CreateCandidate(s, c))
  }

  /** The greeting the effect schedules for a returning candidate who already has a chat. */
  function WelcomeBackText(name: string): string {
    "Welcome back, " + name + "! You can continue your interview here. \U{1F44B}"
  }

  /**
   * The effect on the current candidate: a candidate not yet greeted opens the interview
   * and, when it already has a chat history, schedules the welcome-back greeting (the
   * second component); no candidate returns to the upload step.
   */
  function StepEffect(t: TabState, current: Option<Candidate>): (r: (TabState, Option<string>))
    ensures current.Some? && !t.hasShownWelcomeBack ==> r.0.step == Interview && r.0.hasShownWelcomeBack
    ensures r.1.Some? <==> current.Some? && !t.hasShownWelcomeBack && |current.value.chatHistory| > 0
    ensures r.1.Some? ==> r.1.value == WelcomeBackText(current.value.name)
    ensures current.None? ==> r.0.step == Upload && !r.0.hasShownWelcomeBack
    ensures current.Some? && t.hasShownWelcomeBack ==> r == (t, None)
    ensures r.0.(step := t.step, hasShownWelcomeBack := t.hasShownWelcomeBack) == t
  {
    match current
    case Some(c) =>
      if t.hasShownWelcomeBack then (t, None)
      else
        var greeting := if |c.chatHistory| > 0 then Some(WelcomeBackText(c.name)) else None;
        (t.(step := Interview, hasShownWelcomeBack := true), greeting)
    case None => (t.(step := Upload, hasShownWelcomeBack := false), None)
  }

  /**
   * Half a second later the scheduled greeting joins the chat of whoever is current then;
   * with nobody current it is dropped.
   */
  function DeliverWelcomeBack(s: InterviewState, text: string, messageId: string, now: nat): (r: InterviewState)
    ensures s.currentCandidate.None? ==> r == s
    ensures s.currentCandidate.Some? ==>
      && r.currentCandidate.Some?
      && r.currentCandidate.value ==
           s.currentCandidate.value.(chatHistory := s.currentCandidate.value.chatHistory + [ChatMessage(messageId, Bot, text, now)])
    ensures r.candidates == s.candidates
  {
    AddChatMessage(s, ChatMessage(messageId, Bot, text, now))
  }

  /**
   * The greeting is scheduled once per arrival: while the same candidate stays current the
   * effect schedules nothing more, and once the candidate has gone it is armed again.
   */
  lemma WelcomeBackOnce(t: TabState, c: Candidate)
    ensures var r := StepEffect(t, Some(c)).0; StepEffect(r, Some(c)) == (r, None)
    ensures var back := StepEffect(StepEffect(t, None).0, Some(c));
      back.1.Some? <==> |c.chatHistory| > 0
  {
  }

  /** The tab was greeted only while it shows the interview. */
  predicate TabConsistent(t: TabState) {
    t.hasShownWelcomeBack ==> t.step == Interview
  }

  /**
   * Once the effect has run, the step is the interview exactly when there is a current
   * candidate, and the tab stays consistent.
   */
  lemma StepFollowsCandidate(t: TabState, current: Option<Candidate>)
    requires TabConsistent(t)
    ensures var r := StepEffect(t, current).0;
      && TabConsistent(r)
      && (r.step == Interview <==> current.Some?)
      && (r.step == Upload <==> current.None?)
  {
  }

  /**
   * Every handler keeps the tab consistent. The upload handler runs only on the upload
   * step, where the upload control is shown; the form handlers on any step.
   */
  lemma HandlersKeepConsistency(t: TabState, s: InterviewState, info: ExtractedInfo, fileName: string,
                                f: Field, value: string, now: nat)
    requires TabConsistent(t)
    ensures t.step == Upload ==> TabConsistent(HandleResumeUploaded(t, s, info, fileName, now).0)
    ensures TabConsistent(EditField(t, f, value))
    ensures TabConsistent(HandleInfoSubmit(t, s, now).0)
  {
  }

  // ---------------------------------------------------------------------------------------
  // Welcome message

  const ReadyPrompt := "\n\nI'll ask you 6 questions: 2 easy, 2 medium, and 2 hard. Each question has a time limit and will be based on your actual skills and experience.\n\nPlease type \"ready\" or \"start\" when you're ready to begin the interview."

  const GeneralLine := " I'll be asking you general full-stack developer questions since I couldn't extract specific technologies from your resume."

  function Greeting(name: string): string {
    "Hello " + name + "! Welcome to your personalized interview."
  }

  /** One entry of the detected-items line, present only when the list is non-empty. */
  function CountEntry(n: nat, noun: string): (r: seq<string>)
    ensures n == 0 <==> r == []
    ensures n > 0 ==> r == [NatToString(n) + " " + noun]
  {
    if n == 0 then [] else [NatToString(n) + " " + noun]
  }

  /** The counts of what was detected, in the order skills, technologies, experience, projects. */
  function DetectedCounts(info: ExtractedInfo): (r: seq<string>)
    ensures |r| <= 4
    ensures |r| == 0 <==> info.skills == [] && info.technologies == [] && info.experience == [] && info.projects == []
  {
    CountEntry(|info.skills|, "skills") + CountEntry(|info.technologies|, "technologies")
    + CountEntry(|info.experience|, "experience entries") + CountEntry(|info.projects|, "projects")
  }

  /** The personalised part: the first three technologies, then what was detected. */
  function TechLine(info: ExtractedInfo): string {
    var detected := DetectedCounts(info);
    " I see you have experience with " + Join(Take(info.technologies, 3), ", ")
    + ". I'll be asking you questions tailored to your background."
    + (if |detected| > 0 then "\n\n\U{1F4CB} Detected from your resume: " + Join(detected, ", ") + "." else "")
  }

  /**
   * The welcome message: the greeting, then the personalised line when technologies were
   * found and the general line otherwise, then the prompt to type "ready".
   */
  function WelcomeMessage(name: string, resume: Option<ExtractedInfo>): (msg: string)
    ensures resume.None? || resume.value.technologies == [] ==> Framed(msg, Greeting(name), GeneralLine, ReadyPrompt)
    ensures resume.Some? && resume.value.technologies != [] ==>
      Framed(msg, Greeting(name), TechLine(resume.value), ReadyPrompt)
  {
    var middle := if resume.Some? && |resume.value.technologies| > 0 then TechLine(resume.value) else GeneralLine;
    ThreeParts(Greeting(name), middle, ReadyPrompt);
    Greeting(name) + middle + ReadyPrompt
  }

  /** Whenever technologies were found the detected line is there, since they count too. */
  lemma TechnologiesAlwaysDetected(info: ExtractedInfo)
    requires info.technologies != []
    ensures |DetectedCounts(info)| > 0
    ensures NatToString(|info.technologies|) + " " + "technologies" in DetectedCounts(info)
  {
    var e := NatToString(|info.technologies|) + " " + "technologies";
    var d := DetectedCounts(info);
    var pre := CountEntry(|info.skills|, "skills");
    assert CountEntry(|info.technologies|, "technologies") == [e];
    assert d[|pre|] == e;
  }

  /**
   * The message names the candidate, and when technologies were found it names the first
   * three of them and how many there are.
   */
  lemma WelcomeNamesCandidate(name: string, resume: Option<ExtractedInfo>)
    ensures Includes(WelcomeMessage(name, resume), name)
    ensures resume.Some? ==> forall i :: 0 <= i < |resume.value.technologies| && i < 3 ==>
      Includes(WelcomeMessage(name, resume), resume.value.technologies[i])
    ensures resume.Some? && resume.value.technologies != [] ==>
      Includes(WelcomeMessage(name, resume), NatToString(|resume.value.technologies|) + " " + "technologies")
  {
    var g := Greeting(name);
    var middle := if resume.Some? && |resume.value.technologies| > 0 then TechLine(resume.value) else GeneralLine;
    var msg := g + middle + ReadyPrompt;
    assert WelcomeMessage(name, resume) == msg;
    assert SliceAt(name, name, 0);
    IncludesWithin("Hello ", name, "! Welcome to your personalized interview.", name);
    IncludesPrefix(g, middle, name);
    IncludesPrefix(g + middle, ReadyPrompt, name);
    if resume.Some? && resume.value.technologies != [] {
      var info := resume.value;
      forall i | 0 <= i < |info.technologies| && i < 3
        ensures Includes(msg, info.technologies[i])
      {
        TechLineNames(info, info.technologies[i], i);
        IncludesWithin(g, middle, ReadyPrompt, info.technologies[i]);
      }
      TechnologiesAlwaysDetected(info);
      TechLineCounts(info);
      IncludesWithin(g, middle, ReadyPrompt, NatToString(|info.technologies|) + " " + "technologies");
    }
  }

  /** The personalised line names each of the first three technologies. */
  lemma TechLineNames(info: ExtractedInfo, tech: string, i: nat)
    requires i < |info.technologies| && i < 3 && tech == info.technologies[i]
    ensures Includes(TechLine(info), tech)
  {
    var detected := DetectedCounts(info);
    var top := Take(info.technologies, 3);
    var a := " I see you have experience with ";
    var b := ". I'll be asking you questions tailored to your background.";
    var d := if |detected| > 0 then "\n\n\U{1F4CB} Detected from your resume: " + Join(detected, ", ") + "." else "";
    assert top[i] == tech;
    JoinIncludes(top, ", ", i);
    IncludesWithin(a, Join(top, ", "), b, tech);
    IncludesPrefix(a + Join(top, ", ") + b, d, tech);
  }

  /** The personalised line names every detected count. */
  lemma TechLineCounts(info: ExtractedInfo)
    requires NatToString(|info.technologies|) + " " + "technologies" in DetectedCounts(info)
    ensures Includes(TechLine(info), NatToString(|info.technologies|) + " " + "technologies")
  {
    var e := NatToString(|info.technologies|) + " " + "technologies";
    var detected := DetectedCounts(info);
    var top := Take(info.technologies, 3);
    var a := " I see you have experience with ";
    var b := ". I'll be asking you questions tailored to your background.";
    var p := "\n\n\U{1F4CB} Detected from your resume: ";
    var j :| 0 <= j < |detected| && detected[j] == e;
    JoinIncludes(detected, ", ", j);
    IncludesWithin(p, Join(detected, ", "), ".", e);
    IncludesSuffix(a + Join(top, ", ") + b, p + Join(detected, ", ") + ".", e);
  }

  /**
   * The delayed part of `createCandidate`: the welcome message joins the current chat, and
   * a second later the candidate is marked as prompted, in the roster and the current slot.
   */
  function DeliverWelcome(s: InterviewState, c: Candidate, resume: Option<ExtractedInfo>,
                          messageId: string, now: nat): (r: InterviewState)
    requires s.currentCandidate == Some(c)
    ensures |r.candidates| == |s.candidates|
    ensures r.currentCandidate.Some?
    ensures var cur := r.currentCandidate.value;
      && cur.chatHistory == c.chatHistory + [ChatMessage(messageId, Bot, WelcomeMessage(c.name, resume), now)]
      && cur.hasBeenPromptedToStart == Some(true)
      && cur.(chatHistory := c.chatHistory, hasBeenPromptedToStart := c.hasBeenPromptedToStart) == c
  {
    var m := ChatMessage(messageId, Bot, WelcomeMessage(c.name, resume), now);
    UpdateCandidate(AddChatMessage(s, m), CandidatePatch(c.id, hasBeenPromptedToStart := Some(true)))
  }
}
