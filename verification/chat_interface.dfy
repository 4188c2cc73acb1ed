/**
 * The interview engine of the chat screen as a sequential event-driven state machine.
 *
 * The engine holds the session store and the screen's local state. Every user action,
 * timer expiry and completed remote call is an `Event`; `Step` applies it and then lets the
 * time-up effect run, as React re-runs an effect whose dependencies changed. A continuation
 * scheduled with `setTimeout` after an answer is graded waits in `continuations` until its
 * `Continue` event. Remote outcomes (question text, evaluation reply, summary reply) and the
 * clock are event parameters.
 *
 * A continuation runs the `submitAnswer` closure of the render that submitted: it sees that
 * render's candidate and generating flag, not the live ones.
 *
 * `Variant` selects between the code as written and the corrected code of the three findings
 * described in the README: a `submitted` flag that admits one submission per question, a
 * final summary computed over every recorded answer, and a continuation that consults the
 * live generating flag.
 */
module ChatInterface {
  import opened Wrappers
  import opened Text
  import opened Types
  import Store
  import AiService

  /** The number of questions in an interview. */
  const QuestionCount := 6

  /** The substitute answer submitted when time runs out with nothing typed. */
  const TimeExpiredAnswer := "No answer provided (time expired)"

  datatype Variant = AsWritten | Corrected

  /** A question generation in flight, with its arguments. */
  datatype GenRequest = GenRequest(difficulty: Difficulty, index: nat)

  /**
   * An evaluation in flight (`isLoading`): the question and answer being graded, the time
   * charged, the candidate and the generating flag as the submitting closure saw them, and
   * whether time-up submitted it.
   */
  datatype Submission = Submission(question: Question, answer: string, timeSpent: int, snapshot: Candidate,
                                   generating: bool, timeUp: bool)

  /** The continuation scheduled after grading, with what its closure captured. */
  datatype Continuation = Continuation(snapshot: Candidate, generating: bool)

  /**
   * The engine: the store; the screen's input, stored answer, countdown start and page
   * visibility; the `isGeneratingQuestion` flag and the generations actually in flight, in
   * the order they started; the evaluation in flight; the scheduled continuations; and the
   * corrected variant's one-submission flag.
   */
  datatype Engine = Engine(
    store: InterviewState,
    input: string,
    userAnswer: string,
    timerStarted: bool,
    pageVisible: bool,
    generating: bool,
    requests: seq<GenRequest>,
    grading: Option<Submission>,
    continuations: seq<Continuation>,
    submitted: bool)

  /** `QuestionLoaded(slot, ...)` completes the generation at position `slot` of those in flight. */
  datatype Event =
    | Submit
    | Keystroke(text: string)
    | Tick
    | Visibility(visible: bool)
    | QuestionLoaded(slot: nat, questionReply: Option<string>, now: nat)
    | Graded(evaluationReply: Option<string>)
    | Continue(summaryReply: Option<string>, now: nat)

  /** The difficulty schedule: two easy, two medium, then hard questions. */
  function DifficultyAt(index: nat): (d: Difficulty)
    ensures d == Easy <==> index < 2
    ensures d == Medium <==> 2 <= index < 4
    ensures d == Hard <==> index >= 4
  {
    if index < 2 then Easy else if index < 4 then Medium else Hard
  }

  /** An interview of six questions holds two of each difficulty and lasts 400 seconds at most. */
  lemma ScheduleBalanced()
    ensures |set i | 0 <= i < QuestionCount && DifficultyAt(i) == Easy| == 2
    ensures |set i | 0 <= i < QuestionCount && DifficultyAt(i) == Medium| == 2
    ensures |set i | 0 <= i < QuestionCount && DifficultyAt(i) == Hard| == 2
    ensures TotalTime(QuestionCount) == 400
  {
    assert (set i | 0 <= i < QuestionCount && DifficultyAt(i) == Easy) == {0, 1};
    assert (set i | 0 <= i < QuestionCount && DifficultyAt(i) == Medium) == {2, 3};
    assert (set i | 0 <= i < QuestionCount && DifficultyAt(i) == Hard) == {4, 5};
  }

  function TotalTime(n: nat): nat {
    if n == 0 then 0 else TotalTime(n - 1) + AiService.MaxTime(DifficultyAt(n - 1))
  }

  predicate IsStartWord(s: string) {
    s == "ready" || s == "start" || s == "yes"
  }

  /**
   * The component as it mounts on the persisted store, with fresh local state. The effects
   * of the first commit all see the persisted values: the question-reset effect puts the
   * clock back to the question's limit, and the time-up effect, reading the persisted time,
   * submits when it is zero. With nothing typed yet, the submission is the substitute answer.
   */
  function Mount(store: InterviewState): (e: Engine)
    ensures e.store.currentCandidate == store.currentCandidate && e.store.candidates == store.candidates
    ensures e.store.currentQuestion == store.currentQuestion && e.store.isInterviewActive == store.isInterviewActive
    ensures store.currentQuestion.Some? ==> e.store.timeRemaining == store.currentQuestion.value.maxTime
    ensures store.currentQuestion.None? ==> e.store == store
    ensures !e.timerStarted && e.userAnswer == [] && e.input == [] && e.pageVisible
    ensures !e.generating && e.requests == [] && e.continuations == []
    ensures e.grading.Some? <==>
      store.timeRemaining == 0 && store.currentQuestion.Some? && store.isInterviewActive && store.currentCandidate.Some?
    ensures e.grading.Some? ==>
      var q := store.currentQuestion.value;
      e.grading.value == Submission(q, TimeExpiredAnswer, q.maxTime, store.currentCandidate.value, false, true)
    ensures e.submitted <==> e.grading.Some?
  {
    var q := store.currentQuestion;
    var due := store.timeRemaining == 0 && q.Some? && store.isInterviewActive && store.currentCandidate.Some?;
    var grading := if due then Some(Submission(q.value, TimeExpiredAnswer, q.value.maxTime, store.currentCandidate.value, false, true))
      else None;
    Engine(ResetClock(store), "", "", false, true, false, [], grading, [], due)
  }

  /** The question-reset effect's store update: the clock back to the question's limit. */
  function ResetClock(store: InterviewState): (r: InterviewState)
    ensures r.currentCandidate == store.currentCandidate && r.candidates == store.candidates
    ensures r.currentQuestion == store.currentQuestion && r.isInterviewActive == store.isInterviewActive
    ensures store.currentQuestion.Some? ==> r.timeRemaining == store.currentQuestion.value.maxTime
    ensures store.currentQuestion.None? ==> r == store
  {
    match store.currentQuestion
    case Some(q) => if store.timeRemaining != q.maxTime then Store.UpdateTimeRemaining(store, q.maxTime) else store
    case None => store
  }

  /**
   * Mounting is the first commit's effects on fresh local state: the time-up effect, reading
   * the persisted store with nothing typed, then the reset effect's store update. Nothing has
   * been submitted yet, so both variants mount alike.
   */
  lemma MountSettles(v: Variant, store: InterviewState)
    ensures Mount(store) ==
      Settle(v, Engine(store, "", "", false, true, false, [], None, [], false)).(store := ResetClock(store))
  {
    assert IsBlank("");
  }

  predicate Loading(s: Engine) {
    s.grading.Some?
  }

  /** The five conditions under which the countdown runs. */
  predicate CountdownRuns(s: Engine) {
    && s.store.isInterviewActive
    && s.store.currentQuestion.Some?
    && s.store.timeRemaining > 0
    && s.timerStarted
    && s.pageVisible
  }

  /** The time-up effect's condition; the corrected variant also demands no earlier submission. */
  predicate TimeUpDue(v: Variant, s: Engine) {
    && s.store.timeRemaining == 0
    && s.store.currentQuestion.Some?
    && s.store.isInterviewActive
    && !Loading(s)
    && (v == Corrected ==> !s.submitted)
  }

  /** What time-up submits: the trimmed typed answer, or the substitute when it is blank. */
  function TimeUpAnswer(typed: string): (a: string)
    ensures !IsBlank(typed) ==> a == Trim(typed)
    ensures IsBlank(typed) ==> a == TimeExpiredAnswer
    ensures a != []
  {
    var t := Trim(typed);
    if t == [] then TimeExpiredAnswer else t
  }

  /** `handleTimeUp`: submit with the full time limit charged. */
  function HandleTimeUp(s: Engine): (r: Engine)
    requires s.store.currentQuestion.Some?
    ensures s.store.currentCandidate.Some? ==>
      r.grading == Some(Submission(s.store.currentQuestion.value, TimeUpAnswer(s.userAnswer),
        s.store.currentQuestion.value.maxTime, s.store.currentCandidate.value, s.generating, true))
    ensures s.store.currentCandidate.Some? ==> r.submitted
    ensures s.store.currentCandidate.None? ==> r == s
    ensures r.store == s.store && r.generating == s.generating && r.requests == s.requests
    ensures r.continuations == s.continuations
    ensures r.input == s.input && r.userAnswer == s.userAnswer && r.timerStarted == s.timerStarted
  {
    match s.store.currentCandidate
    case None => s
    case Some(c) =>
      var q := s.store.currentQuestion.value;
      s.(grading := Some(Submission(q, TimeUpAnswer(s.userAnswer), q.maxTime, c, s.generating, true)), submitted := true)
  }

  /** The effects that follow every event: the time-up effect fires when it is due. */
  function Settle(v: Variant, s: Engine): (r: Engine)
    ensures r.store == s.store && r.generating == s.generating && r.requests == s.requests
    ensures r.continuations == s.continuations
    ensures r.input == s.input && r.userAnswer == s.userAnswer && r.timerStarted == s.timerStarted
    ensures !TimeUpDue(v, s) ==> r == s
  {
    if TimeUpDue(v, s) then HandleTimeUp(s) else s
  }

  // ---------------------------------------------------------------------------------------
  // Events

  /** `startInterviewProcess`: skipped while a generation is in flight, and only with a candidate. */
  function StartInterviewProcess(s: Engine): (r: Engine)
    ensures s.store.currentCandidate.None? || s.generating ==> r == s
    ensures s.store.currentCandidate.Some? && !s.generating ==>
      && r.generating && r.requests == s.requests + [GenRequest(Easy, 0)]
      && r.store == Store.StartInterview(s.store)
    ensures r == s.(generating := r.generating, requests := r.requests, store := r.store)
  {
    if s.store.currentCandidate.None? || s.generating then s
    else s.(generating := true, requests := s.requests + [GenRequest(Easy, 0)], store := Store.StartInterview(s.store))
  }

  /**
   * `submitAnswer`: hand the answer to the evaluator, with the candidate and the generating
   * flag the closure holds.
   */
  function SubmitAnswer(s: Engine, answer: string, timeSpent: int): (r: Engine)
    requires s.store.currentQuestion.Some?
    ensures s.store.currentCandidate.None? ==> r == s
    ensures s.store.currentCandidate.Some? ==>
      r == s.(grading := Some(Submission(s.store.currentQuestion.value, answer, timeSpent,
        s.store.currentCandidate.value, s.generating, false)), submitted := true)
  {
    match s.store.currentCandidate
    case None => s
    case Some(c) =>
      s.(grading := Some(Submission(s.store.currentQuestion.value, answer, timeSpent, c, s.generating, false)), submitted := true)
  }

  /** The four routes of `handleSubmit`. */
  datatype Route = Ignored | Starting | Answering | Chatting

  /**
   * Blank input or a pending evaluation is ignored; a start word starts the interview when
   * none is running and no question is shown; with a question shown in an active interview
   * the input is the answer; anything else is chatter.
   */
  function SubmitRoute(s: Engine): (route: Route)
    ensures route == Ignored <==> IsBlank(s.input) || Loading(s)
    ensures route == Starting ==>
      !s.store.isInterviewActive && s.store.currentQuestion.None? && IsStartWord(Lower(Trim(s.input)))
    ensures route == Answering <==> !IsBlank(s.input) && !Loading(s) && s.store.currentQuestion.Some? && s.store.isInterviewActive
    ensures route == Chatting ==> !(s.store.currentQuestion.Some? && s.store.isInterviewActive)
  {
    var t := Trim(s.input);
    if t == [] || Loading(s) then Ignored
    else if !s.store.isInterviewActive && s.store.currentQuestion.None? && IsStartWord(Lower(t)) then Starting
    else if s.store.currentQuestion.Some? && s.store.isInterviewActive then Answering
    else Chatting
  }

  /** `handleSubmit`: the chosen route's handler. */
  function HandleSubmit(v: Variant, s: Engine): (r: Engine)
    ensures IsBlank(s.input) || Loading(s) ==> r == s
    ensures r.continuations == s.continuations
  {
    match SubmitRoute(s)
    case Ignored => s
    case Starting => StartInterviewProcess(s.(input := ""))
    case Answering => SubmitTyped(v, s)
    case Chatting => HandleChatter(s)
  }

  /** Each route's handler, named. */
  lemma SubmitRoutes(v: Variant, s: Engine)
    ensures SubmitRoute(s) == Ignored ==> HandleSubmit(v, s) == s
    ensures SubmitRoute(s) == Starting ==> HandleSubmit(v, s) == StartInterviewProcess(s.(input := ""))
    ensures SubmitRoute(s) == Answering ==> HandleSubmit(v, s) == SubmitTyped(v, s)
    ensures SubmitRoute(s) == Chatting ==> HandleSubmit(v, s) == HandleChatter(s)
  {
  }

  /** The answer route of `handleSubmit`: the trimmed input is graded, charged the elapsed time. */
  function SubmitTyped(v: Variant, s: Engine): (r: Engine)
    requires s.store.currentQuestion.Some?
    ensures r.store == s.store && r.generating == s.generating && r.requests == s.requests
    ensures r.continuations == s.continuations
    ensures r.pageVisible == s.pageVisible && (r.timerStarted ==> s.timerStarted)
    ensures r.grading != s.grading ==> r.grading.Some? && !r.grading.value.timeUp
  {
    if v == Corrected && s.submitted then s
    else
      var q := s.store.currentQuestion.value;
      SubmitAnswer(s.(input := "", userAnswer := "", timerStarted := false), Trim(s.input), q.maxTime - s.store.timeRemaining)
  }

  /** The chatter route of `handleSubmit`: the input is cleared and the candidate marked as prompted. */
  function HandleChatter(s: Engine): (r: Engine)
    ensures r == s.(input := "", store := r.store)
    ensures r.store.timeRemaining == s.store.timeRemaining && r.store.currentQuestion == s.store.currentQuestion
    ensures r.store.isInterviewActive == s.store.isInterviewActive
  {
    var s' := s.(input := "");
    match s.store.currentCandidate
    case Some(c) =>
      if !s.store.isInterviewActive && s.store.currentQuestion.None? && !Flag(c.hasBeenPromptedToStart) then
        s'.(store := Store.UpdateCandidate(s.store, CandidatePatch(c.id, hasBeenPromptedToStart := Some(true))))
      else s'
    case None => s'
  }

  /** The input's `onChange`; the input is disabled while an evaluation is pending. */
  function HandleKeystroke(s: Engine, text: string): (r: Engine)
    ensures Loading(s) ==> r == s
    ensures r.store == s.store && r.grading == s.grading && r.generating == s.generating && r.requests == s.requests
    ensures r.continuations == s.continuations
    ensures !Loading(s) ==> r.input == text
    ensures r.timerStarted <==>
      s.timerStarted || (!Loading(s) && s.store.currentQuestion.Some? && s.store.isInterviewActive && |text| > 0)
  {
    if Loading(s) then s
    else if s.store.currentQuestion.Some? && s.store.isInterviewActive then
      s.(input := text, userAnswer := text, timerStarted := s.timerStarted || |text| > 0)
    else s.(input := text)
  }

  /** One second of the countdown. */
  function HandleTick(s: Engine): (r: Engine)
    ensures CountdownRuns(s) ==> r.store.timeRemaining == s.store.timeRemaining - 1
    ensures !CountdownRuns(s) ==> r == s
    ensures r.store.(timeRemaining := s.store.timeRemaining) == s.store
    ensures r.(store := s.store) == s
  {
    if CountdownRuns(s) then s.(store := Store.UpdateTimeRemaining(s.store, s.store.timeRemaining - 1)) else s
  }

  /**
   * The generation at position `slot` completes (from the model or the fallback pool): its
   * question is shown, it leaves the generations in flight, and the flag is lowered. A
   * question with a new id resets the screen: the countdown waits for typing again and the
   * stored answer is cleared. The corrected variant also re-admits one submission.
   */
  function HandleQuestionLoaded(v: Variant, s: Engine, slot: nat, reply: Option<string>, now: nat): (r: Engine)
    ensures slot >= |s.requests| ==> r == s
    ensures slot < |s.requests| ==>
      && !r.generating && r.requests == s.requests[..slot] + s.requests[slot + 1..]
      && r.store.currentQuestion.Some?
      && r.store.currentQuestion.value ==
        AiService.GenerateQuestion(s.requests[slot].difficulty, s.requests[slot].index, reply, now)
      && r.store.timeRemaining == r.store.currentQuestion.value.maxTime
    ensures slot < |s.requests| ==>
      var q := r.store.currentQuestion.value;
      (s.store.currentQuestion.None? || s.store.currentQuestion.value.id != q.id) ==>
        !r.timerStarted && r.userAnswer == []
    ensures slot < |s.requests| && v == Corrected ==> !r.submitted
    ensures r.grading == s.grading && r.continuations == s.continuations
  {
    if slot >= |s.requests| then s
    else
      var req := s.requests[slot];
      var q := AiService.GenerateQuestion(req.difficulty, req.index, reply, now);
      var newId := s.store.currentQuestion.None? || s.store.currentQuestion.value.id != q.id;
      var s' := s.(store := Store.SetCurrentQuestion(s.store, q), generating := false,
        requests := s.requests[..slot] + s.requests[slot + 1..],
        submitted := if v == Corrected then false else s.submitted);
      if newId then s'.(timerStarted := false, userAnswer := "") else s'
  }

  /** The answer record built from a graded submission. */
  function MakeAnswer(p: Submission, e: AiService.Evaluation): Answer {
    Answer(p.question.id, p.question.question, p.answer, p.question.difficulty,
      p.timeSpent, p.question.maxTime, e.score, e.feedback)
  }

  /**
   * The evaluation arrives: the answer is recorded, loading ends, and the continuation is
   * scheduled with the submitting closure's candidate. A time-up submission then clears the
   * input and the stored answer.
   */
  function HandleGraded(s: Engine, reply: Option<string>): (r: Engine)
    ensures s.grading.None? ==> r == s
    ensures s.grading.Some? ==>
      var p := s.grading.value;
      && r.grading.None?
      && r.store == Store.AddAnswer(s.store,
           MakeAnswer(p, AiService.EvaluateAnswer(p.answer, p.question.difficulty, reply)))
      && r.continuations == s.continuations + [Continuation(p.snapshot, p.generating)]
    ensures r.generating == s.generating && r.requests == s.requests && r.submitted == s.submitted
  {
    match s.grading
    case None => s
    case Some(p) =>
      var e := AiService.EvaluateAnswer(p.answer, p.question.difficulty, reply);
      var s' := s.(store := Store.AddAnswer(s.store, MakeAnswer(p, e)), grading := None,
        continuations := s.continuations + [Continuation(p.snapshot, p.generating)]);
      if p.timeUp then s'.(input := "", userAnswer := "") else s'
  }

  /** The answers the final summary is computed over. */
  function SummaryAnswers(v: Variant, s: Engine, snapshot: Candidate): seq<Answer> {
    match v
    case AsWritten => snapshot.answers
    case Corrected => (match s.store.currentCandidate case Some(c) => c.answers case None => snapshot.answers)
  }

  /**
   * `completeInterview`: the final score and summary are written to the candidate, which is
   * marked completed, and the interview ends. With no answers the source's score is NaN; the
   * model then leaves the score as it was.
   */
  function CompleteInterview(v: Variant, s: Engine, snapshot: Candidate, reply: Option<string>, now: nat): (r: Engine)
    ensures !r.store.isInterviewActive
    ensures s.store.currentCandidate.Some? && s.store.currentCandidate.value.id == snapshot.id ==>
      && r.store.currentCandidate.Some?
      && r.store.currentCandidate.value.status == Completed
      && r.store.currentCandidate.value.completedAt == Some(now)
      && r.store.currentCandidate.value.answers == s.store.currentCandidate.value.answers
      && r.store.currentCandidate.value.currentQuestionIndex == s.store.currentCandidate.value.currentQuestionIndex
    ensures var answers := SummaryAnswers(v, s, snapshot);
      s.store.currentCandidate.Some? && s.store.currentCandidate.value.id == snapshot.id ==>
        r.store.currentCandidate.value.score ==
          if |answers| > 0 then AiService.FinalScore(answers) else s.store.currentCandidate.value.score
    ensures s.store.currentCandidate.Some? && s.store.currentCandidate.value.id == snapshot.id && reply.Some? ==>
      r.store.currentCandidate.value.summary == Trim(reply.value)
    ensures var answers := SummaryAnswers(v, s, snapshot);
      s.store.currentCandidate.Some? && s.store.currentCandidate.value.id == snapshot.id && reply.None? ==>
        r.store.currentCandidate.value.summary == AiService.SummaryText(
          if |answers| > 0 then AiService.BandOf(AiService.FinalScore(answers)) else AiService.BelowAverage)
    ensures s.store.currentCandidate.Some? && s.store.currentCandidate.value.id != snapshot.id ==>
      r.store.currentCandidate == Some(s.store.currentCandidate.value.(status := Completed, completedAt := Some(now)))
    ensures s.store.currentCandidate.None? ==> r.store.currentCandidate.None?
    ensures r.store.currentQuestion == s.store.currentQuestion && r.store.timeRemaining == s.store.timeRemaining
    ensures r == s.(store := r.store)
  {
    var answers := SummaryAnswers(v, s, snapshot);
    var patch :=
      if |answers| > 0 then
        var summary := AiService.GenerateFinalSummary(answers, reply);
        CandidatePatch(snapshot.id, score := Some(summary.score), summary := Some(summary.summary),
          status := Some(Completed), completedAt := Some(now))
      else
        var text := match reply case Some(raw) => Trim(raw) case None => AiService.SummaryText(AiService.BelowAverage);
        CandidatePatch(snapshot.id, summary := Some(text), status := Some(Completed), completedAt := Some(now));
    s.(store := Store.EndInterview(Store.UpdateCandidate(s.store, patch), now))
  }

  /**
   * The generating flag `loadNextQuestion` consults: as written, the one its closure
   * captured when the answer was submitted; corrected, the live one.
   */
  function GuardFlag(v: Variant, s: Engine, k: Continuation): bool {
    match v
    case AsWritten => k.generating
    case Corrected => s.generating
  }

  /**
   * `loadNextQuestion` as the continuation's closure holds it: skipped when the flag it
   * consults is raised, otherwise a generation of the question after the closure's
   * candidate's index starts.
   */
  function LoadNextQuestion(v: Variant, s: Engine, k: Continuation): (r: Engine)
    ensures GuardFlag(v, s, k) ==> r == s
    ensures !GuardFlag(v, s, k) ==>
      var i := k.snapshot.currentQuestionIndex + 1;
      && r.generating && r.requests == s.requests + [GenRequest(DifficultyAt(i), i)]
      && r == s.(generating := true, requests := r.requests)
  {
    if GuardFlag(v, s, k) then s
    else
      var i := k.snapshot.currentQuestionIndex + 1;
      s.(generating := true, requests := s.requests + [GenRequest(DifficultyAt(i), i)])
  }

  /**
   * The continuation scheduled after grading: it completes the interview once the closure's
   * candidate had reached the last question, and otherwise loads the next one.
   */
  function HandleContinue(v: Variant, s: Engine, reply: Option<string>, now: nat): (r: Engine)
    ensures s.continuations == [] ==> r == s
    ensures s.continuations != [] ==> r.continuations == s.continuations[1..]
    ensures s.continuations != [] && s.continuations[0].snapshot.currentQuestionIndex + 1 < QuestionCount ==>
      r.store == s.store
    ensures s.continuations != [] && s.continuations[0].snapshot.currentQuestionIndex + 1 >= QuestionCount ==>
      !r.store.isInterviewActive && r.generating == s.generating && r.requests == s.requests
    ensures r.grading == s.grading && r.submitted == s.submitted
  {
    if s.continuations == [] then s
    else
      var k := s.continuations[0];
      var s' := s.(continuations := s.continuations[1..]);
      if k.snapshot.currentQuestionIndex + 1 >= QuestionCount then CompleteInterview(v, s', k.snapshot, reply, now)
      else LoadNextQuestion(v, s', k)
  }

  /** The handler of one event, before the effects it triggers. */
  function Dispatch(v: Variant, s: Engine, e: Event): Engine {
    match e
    case Submit => HandleSubmit(v, s)
    case Keystroke(text) => HandleKeystroke(s, text)
    case Tick => HandleTick(s)
    case Visibility(visible) => s.(pageVisible := visible)
    case QuestionLoaded(slot, reply, now) => HandleQuestionLoaded(v, s, slot, reply, now)
    case Graded(reply) => HandleGraded(s, reply)
    case Continue(reply, now) => HandleContinue(v, s, reply, now)
  }

  /** One event followed by the effects it triggers. */
  function Step(v: Variant, s: Engine, e: Event): Engine {
    Settle(v, Dispatch(v, s, e))
  }

  function Run(v: Variant, s: Engine, events: seq<Event>): Engine
    decreases |events|
  {
    if |events| == 0 then s else Run(v, Step(v, s, events[0]), events[1..])
  }
}
