/**
 * What the interview engine guarantees, for both variants unless stated: the routing of
 * submitted input, question generation and its flag, the countdown and time-up gates, and
 * invariants on every recorded answer.
 */
module ChatProperties {
  import opened Wrappers
  import opened Text
  import opened Types
  import Store
  import AiService
  import opened ChatInterface

  // ---------------------------------------------------------------------------------------
  // Input routing

  /**
   * With no interview running, a submission starts one exactly when the trimmed, lower-cased
   * input is a start word, no question is shown, nothing is being graded or generated, and
   * there is a candidate.
   */
  lemma SubmitStartsIff(v: Variant, s: Engine)
    requires !s.store.isInterviewActive
    ensures var r := Step(v, s, Submit);
      r.store.isInterviewActive <==>
        && !IsBlank(s.input) && !Loading(s)
        && s.store.currentQuestion.None?
        && IsStartWord(Lower(Trim(s.input)))
        && s.store.currentCandidate.Some? && !s.generating
  {
  }

  /** A start word that starts the interview requests the first question: easy, index 0. */
  lemma SubmitStartRequestsFirstQuestion(v: Variant, s: Engine)
    requires !s.store.isInterviewActive && s.store.currentQuestion.None?
    requires !IsBlank(s.input) && !Loading(s) && IsStartWord(Lower(Trim(s.input)))
    requires s.store.currentCandidate.Some? && !s.generating
    ensures var r := Step(v, s, Submit);
      && r.generating && r.requests == s.requests + [GenRequest(Easy, 0)]
      && r.store.currentCandidate == Some(s.store.currentCandidate.value.(status := InProgress))
      && r.input == []
  {
  }

  /**
   * During an active question a non-blank submission is the answer: it is graded as trimmed,
   * charged `maxTime - timeRemaining` seconds, and the input, the stored answer and the
   * countdown start are reset.
   */
  lemma SubmitAnswerRecordsTime(v: Variant, s: Engine)
    requires !IsBlank(s.input) && !Loading(s)
    requires s.store.currentQuestion.Some? && s.store.isInterviewActive && s.store.currentCandidate.Some?
    requires v == Corrected ==> !s.submitted
    ensures var r := Step(v, s, Submit); var q := s.store.currentQuestion.value;
      && r.grading == Some(Submission(q, Trim(s.input), q.maxTime - s.store.timeRemaining,
           s.store.currentCandidate.value, s.generating, false))
      && r.input == [] && r.userAnswer == [] && !r.timerStarted
      && r.store == s.store && r.generating == s.generating && r.requests == s.requests
      && r.continuations == s.continuations
  {
    AnswerStep(v, s);
  }

  /** The answer route's step is the submission of the cleared engine, with no time-up after it. */
  lemma AnswerStep(v: Variant, s: Engine)
    requires !IsBlank(s.input) && !Loading(s)
    requires s.store.currentQuestion.Some? && s.store.isInterviewActive && s.store.currentCandidate.Some?
    requires v == Corrected ==> !s.submitted
    ensures var q := s.store.currentQuestion.value;
      Step(v, s, Submit) ==
        SubmitAnswer(s.(input := "", userAnswer := "", timerStarted := false), Trim(s.input), q.maxTime - s.store.timeRemaining)
  {
    var q := s.store.currentQuestion.value;
    var d := SubmitAnswer(s.(input := "", userAnswer := "", timerStarted := false), Trim(s.input), q.maxTime - s.store.timeRemaining);
    AnswerDispatch(v, s);
    TypedAnswer(v, s);
    assert !TimeUpDue(v, d);
  }

  /** The answer route submits the trimmed input of the cleared engine, charged the elapsed time. */
  lemma TypedAnswer(v: Variant, s: Engine)
    requires s.store.currentQuestion.Some?
    requires v == Corrected ==> !s.submitted
    ensures var q := s.store.currentQuestion.value;
      SubmitTyped(v, s) ==
        SubmitAnswer(s.(input := "", userAnswer := "", timerStarted := false), Trim(s.input), q.maxTime - s.store.timeRemaining)
  {
    var q := s.store.currentQuestion.value;
    var cleared := s.(input := "", userAnswer := "", timerStarted := false);
    var d := SubmitAnswer(cleared, Trim(s.input), q.maxTime - s.store.timeRemaining);
    assert !(v == Corrected && s.submitted);
    assert SubmitTyped(v, s) == d;
  }

  /** Dispatching the submission of a typed answer runs the answer route. */
  lemma AnswerDispatch(v: Variant, s: Engine)
    requires !IsBlank(s.input) && !Loading(s)
    requires s.store.currentQuestion.Some? && s.store.isInterviewActive
    ensures Dispatch(v, s, Submit) == SubmitTyped(v, s)
  {
    assert SubmitRoute(s) == Answering;
    SubmitRoutes(v, s);
    assert HandleSubmit(v, s) == SubmitTyped(v, s);
  }

  /** A blank submission, or one made while an answer is being graded, changes nothing. */
  lemma SubmitIgnored(v: Variant, s: Engine)
    requires IsBlank(s.input) || Loading(s)
    ensures Step(v, s, Submit) == Settle(v, s)
  {
  }

  /**
   * Chatter before the interview marks the candidate, in the roster and in the current slot,
   * as prompted to start; it never starts anything.
   */
  lemma ChatterMarksPrompted(v: Variant, s: Engine)
    requires !IsBlank(s.input) && !Loading(s) && !IsStartWord(Lower(Trim(s.input)))
    requires !s.store.isInterviewActive && s.store.currentQuestion.None?
    requires s.store.currentCandidate.Some? && !Flag(s.store.currentCandidate.value.hasBeenPromptedToStart)
    ensures var r := Step(v, s, Submit); var c := s.store.currentCandidate.value;
      && r.store == Store.UpdateCandidate(s.store, CandidatePatch(c.id, hasBeenPromptedToStart := Some(true)))
      && r.store.currentCandidate.value.hasBeenPromptedToStart == Some(true)
      && r.generating == s.generating && r.requests == s.requests && r.grading == s.grading && r.input == []
  {
  }

  /**
   * A submission never moves the clock or the shown question, never starts the countdown,
   * touches the generations in flight while the flag is raised, and never makes a time-up
   * submission.
   */
  lemma SubmitFrame(v: Variant, s: Engine)
    ensures var r := HandleSubmit(v, s);
      && r.pageVisible == s.pageVisible
      && r.store.timeRemaining == s.store.timeRemaining && r.store.currentQuestion == s.store.currentQuestion
      && (r.timerStarted ==> s.timerStarted)
      && (s.generating ==> r.generating && r.requests == s.requests)
      && (r.grading != s.grading ==> r.grading.Some? && !r.grading.value.timeUp)
  {
    SubmitRoutes(v, s);
    match SubmitRoute(s)
    case Ignored =>
    case Starting =>
    case Answering =>
    case Chatting =>
  }

  // ---------------------------------------------------------------------------------------
  // Question generation

  /** The flag is backed by a generation: raised, at least one is in flight. */
  predicate FlagBacked(s: Engine) {
    s.generating ==> |s.requests| > 0
  }

  /** The handler left the generations in flight and the flag alone. */
  predicate FlightKept(s: Engine, r: Engine) {
    r.generating == s.generating && r.requests == s.requests
  }

  /** The handler started one more generation and raised the flag. */
  predicate FlightStarted(s: Engine, r: Engine) {
    r.generating && |r.requests| == |s.requests| + 1
  }

  /** A submission starts a generation only with the flag lowered: the start of the interview. */
  lemma SubmitFlight(v: Variant, s: Engine)
    ensures var r := HandleSubmit(v, s); FlightKept(s, r) || (FlightStarted(s, r) && !s.generating)
  {
    SubmitRoutes(v, s);
    match SubmitRoute(s)
    case Ignored =>
    case Starting =>
    case Answering =>
    case Chatting =>
  }

  /** A continuation starts a generation only when the flag it consults is lowered. */
  lemma ContinueFlight(v: Variant, s: Engine, reply: Option<string>, now: nat)
    ensures var r := HandleContinue(v, s, reply, now);
      FlightKept(s, r) || (FlightStarted(s, r) && (v == Corrected ==> !s.generating))
  {
    if s.continuations != [] {
      var k := s.continuations[0];
      var s' := s.(continuations := s.continuations[1..]);
      if k.snapshot.currentQuestionIndex + 1 < QuestionCount {
        assert HandleContinue(v, s, reply, now) == LoadNextQuestion(v, s', k);
      }
    }
  }

  /**
   * What one handler does to the generations in flight: an arrival for a pending request
   * ends one and lowers the flag; any other event either leaves them alone or starts one
   * more with the flag raised, and starts it only while the flag is lowered, except for a
   * continuation as written, which consults its closure's flag.
   */
  lemma DispatchFlight(v: Variant, s: Engine, e: Event)
    ensures var r := Dispatch(v, s, e);
      && (e.QuestionLoaded? && e.slot < |s.requests| ==> !r.generating && |r.requests| + 1 == |s.requests|)
      && (!(e.QuestionLoaded? && e.slot < |s.requests|) ==>
            FlightKept(s, r) || (FlightStarted(s, r) && (v == Corrected || !e.Continue? ==> !s.generating)))
  {
    match e
    case Submit => SubmitFlight(v, s);
    case Keystroke(_) =>
    case Tick =>
    case Visibility(_) =>
    case QuestionLoaded(_, _, _) =>
    case Graded(_) =>
    case Continue(reply, now) => ContinueFlight(v, s, reply, now);
  }

  /**
   * In both variants the raised flag is backed by a generation in flight, and only an
   * arrival lowers it; while it is raised nothing but an arrival changes what is in flight
   * in the corrected variant (as written, a continuation may start another, see the README).
   */
  lemma FlagOnlyLoweredByArrival(v: Variant, s: Engine, e: Event)
    requires FlagBacked(s)
    ensures FlagBacked(Step(v, s, e))
    ensures s.generating && !e.QuestionLoaded? ==> Step(v, s, e).generating
    ensures s.generating && !e.QuestionLoaded? && v == Corrected ==> Step(v, s, e).requests == s.requests
  {
    DispatchFlight(v, s, e);
  }

  /** At most one generation in flight, and the flag is raised exactly while it is. */
  predicate SingleFlight(s: Engine) {
    |s.requests| <= 1 && (s.generating <==> |s.requests| == 1)
  }

  /**
   * Corrected: every event keeps at most one generation in flight, with the flag raised
   * exactly while it is; only the arrival ends it.
   */
  lemma GenerationSingleFlight(s: Engine, e: Event)
    requires SingleFlight(s)
    ensures SingleFlight(Step(Corrected, s, e))
    ensures s.generating && !e.QuestionLoaded? ==> Step(Corrected, s, e).requests == s.requests
  {
    DispatchFlight(Corrected, s, e);
  }

  /**
   * A question arrives only for a generation in flight, and carries that generation's
   * difficulty and time limit; an arrival for no generation changes nothing.
   */
  lemma QuestionOnlyWhenRequested(v: Variant, s: Engine, slot: nat, reply: Option<string>, now: nat)
    ensures var r := Step(v, s, QuestionLoaded(slot, reply, now));
      && (slot >= |s.requests| ==> r.store == s.store && r.generating == s.generating)
      && (slot < |s.requests| ==>
            && r.store.currentQuestion.Some?
            && r.store.currentQuestion.value.difficulty == s.requests[slot].difficulty
            && r.store.currentQuestion.value.maxTime == AiService.MaxTime(s.requests[slot].difficulty)
            && r.store.timeRemaining == r.store.currentQuestion.value.maxTime
            && |r.requests| == |s.requests| - 1)
  {
  }

  /**
   * After grading, the continuation of a candidate at index `i` completes the interview when
   * `i + 1 >= 6`, and otherwise requests question `i + 1` with the scheduled difficulty,
   * unless the flag it consults is raised.
   */
  lemma ContinueSchedule(v: Variant, s: Engine, reply: Option<string>, now: nat)
    requires s.continuations != []
    ensures var r := Step(v, s, Continue(reply, now)); var k := s.continuations[0];
      var i := k.snapshot.currentQuestionIndex + 1;
      && (i >= QuestionCount ==> !r.store.isInterviewActive)
      && (i < QuestionCount && !GuardFlag(v, s, k) ==>
            r.generating && r.requests == s.requests + [GenRequest(DifficultyAt(i), i)])
      && (i < QuestionCount && GuardFlag(v, s, k) ==> r.requests == s.requests)
      && (i < QuestionCount ==> r.store == s.store)
  {
  }

  // ---------------------------------------------------------------------------------------
  // Countdown and time-up

  /** A tick takes exactly one second off, and only while all five countdown conditions hold. */
  lemma TickExact(v: Variant, s: Engine)
    ensures Step(v, s, Tick).store.timeRemaining ==
      if CountdownRuns(s) then s.store.timeRemaining - 1 else s.store.timeRemaining
  {
  }

  /** Only a tick or a newly loaded question moves the remaining time. */
  lemma TimeMovesOnlyOnTickOrLoad(v: Variant, s: Engine, e: Event)
    requires !e.Tick? && !e.QuestionLoaded?
    ensures Step(v, s, e).store.timeRemaining == s.store.timeRemaining
  {
    match e
    case Submit => SubmitFrame(v, s);
    case Keystroke(_) =>
    case Visibility(_) =>
    case Graded(_) =>
    case Continue(reply, now) =>
      if s.continuations != [] && s.continuations[0].snapshot.currentQuestionIndex + 1 >= QuestionCount {
        assert Dispatch(v, s, e).store.timeRemaining == s.store.timeRemaining;
      }
  }

  /** The countdown starts only when the candidate types a character into an active question. */
  lemma TimerStartsOnlyByTyping(v: Variant, s: Engine, e: Event)
    requires !s.timerStarted && Step(v, s, e).timerStarted
    ensures e.Keystroke? && |e.text| > 0 && !Loading(s)
    ensures s.store.currentQuestion.Some? && s.store.isInterviewActive
  {
    match e
    case Submit => SubmitFrame(v, s);
    case Keystroke(_) =>
    case Tick =>
    case Visibility(_) =>
    case QuestionLoaded(_, _, _) =>
    case Graded(_) =>
    case Continue(_, _) =>
  }

  /** A question with a new id waits for typing again, with an empty stored answer. */
  lemma NewQuestionResetsTimer(v: Variant, s: Engine, slot: nat, reply: Option<string>, now: nat)
    requires slot < |s.requests|
    requires var q := AiService.GenerateQuestion(s.requests[slot].difficulty, s.requests[slot].index, reply, now);
      s.store.currentQuestion.None? || s.store.currentQuestion.value.id != q.id
    ensures var r := Step(v, s, QuestionLoaded(slot, reply, now)); !r.timerStarted && r.userAnswer == []
  {
  }

  /**
   * A time-up submission starts only with no time left, a question shown and the interview
   * active; it submits the trimmed typed answer or the substitute, charging the full limit.
   */
  lemma TimeUpSubmission(v: Variant, s: Engine, e: Event)
    requires var r := Step(v, s, e); r.grading.Some? && r.grading.value.timeUp && r.grading != s.grading
    ensures var r := Step(v, s, e); var p := r.grading.value;
      && r.store.timeRemaining == 0 && r.store.isInterviewActive
      && r.store.currentQuestion == Some(p.question)
      && p.timeSpent == p.question.maxTime
      && p.answer == TimeUpAnswer(Dispatch(v, s, e).userAnswer)
      && (IsBlank(Dispatch(v, s, e).userAnswer) ==> p.answer == TimeExpiredAnswer)
  {
    DispatchNeverTimesUp(v, s, e);
  }

  /** Handlers never start a time-up submission themselves; only the settling effect does. */
  lemma DispatchNeverTimesUp(v: Variant, s: Engine, e: Event)
    ensures var d := Dispatch(v, s, e);
      d.grading != s.grading ==> d.grading.None? || !d.grading.value.timeUp
  {
    match e
    case Submit => SubmitFrame(v, s);
    case Keystroke(_) =>
    case Tick =>
    case Visibility(_) =>
    case QuestionLoaded(_, _, _) =>
    case Graded(_) =>
    case Continue(_, _) =>
  }

  // ---------------------------------------------------------------------------------------
  // Invariants

  /** An answer's score lies on the 0..10 scale and its time within its limit. */
  predicate AnswerOk(a: Answer) {
    0 <= a.score <= 10 && 0 <= a.timeSpent <= a.maxTime
  }

  predicate AnswersOk(answers: seq<Answer>) {
    forall i :: 0 <= i < |answers| ==> AnswerOk(answers[i])
  }

  /**
   * The candidate's answers are well-formed, its question index equals their number, and its
   * final score lies on the 0..100 scale.
   */
  predicate CandidateOk(c: Candidate) {
    AnswersOk(c.answers) && c.currentQuestionIndex == |c.answers| && 0 <= c.score <= 100
  }

  /**
   * The engine invariant: the remaining time lies within the shown question's limit; a
   * pending submission is charged within its limit; every candidate the engine holds, current
   * or captured by a closure, has well-formed answers and an index equal to their number.
   */
  predicate Inv(s: Engine) {
    && (s.store.currentQuestion.Some? ==> 0 <= s.store.timeRemaining <= s.store.currentQuestion.value.maxTime)
    && (s.grading.Some? ==>
          0 <= s.grading.value.timeSpent <= s.grading.value.question.maxTime && CandidateOk(s.grading.value.snapshot))
    && (s.store.currentCandidate.Some? ==> CandidateOk(s.store.currentCandidate.value))
    && (forall i :: 0 <= i < |s.continuations| ==> CandidateOk(s.continuations[i].snapshot))
  }

  /** The store invariant the engine mounts on. */
  predicate StoreOk(store: InterviewState) {
    && (store.currentQuestion.Some? ==> 0 <= store.currentQuestion.value.maxTime)
    && (store.currentCandidate.Some? ==> CandidateOk(store.currentCandidate.value))
  }

  lemma MountOk(store: InterviewState)
    requires StoreOk(store)
    ensures Inv(Mount(store))
  {
  }

  lemma SettleOk(v: Variant, s: Engine)
    requires Inv(s)
    ensures Inv(Settle(v, s))
  {
  }

  lemma AddAnswerOk(c: Candidate, a: Answer)
    requires CandidateOk(c) && AnswerOk(a)
    ensures CandidateOk(c.(answers := c.answers + [a], currentQuestionIndex := c.currentQuestionIndex + 1))
  {
    var answers := c.answers + [a];
    forall i | 0 <= i < |answers|
      ensures AnswerOk(answers[i])
    {
      if i < |c.answers| {
        assert answers[i] == c.answers[i];
      }
    }
  }

  lemma GradedOk(s: Engine, reply: Option<string>)
    requires Inv(s)
    ensures Inv(HandleGraded(s, reply))
  {
    if s.grading.Some? {
      var p := s.grading.value;
      var a := MakeAnswer(p, AiService.EvaluateAnswer(p.answer, p.question.difficulty, reply));
      assert AnswerOk(a);
      if s.store.currentCandidate.Some? {
        AddAnswerOk(s.store.currentCandidate.value, a);
      }
      var r := HandleGraded(s, reply);
      forall i | 0 <= i < |r.continuations|
        ensures CandidateOk(r.continuations[i].snapshot)
      {
        if i < |s.continuations| {
          assert r.continuations[i] == s.continuations[i];
        }
      }
    }
  }

  /**
   * An update that touches neither answers nor index, and writes any score on the 0..100
   * scale, keeps the current candidate well-formed.
   */
  lemma UpdateOk(store: InterviewState, p: CandidatePatch)
    requires store.currentCandidate.Some? ==> CandidateOk(store.currentCandidate.value)
    requires p.answers.None? && p.currentQuestionIndex.None?
    requires p.score.Some? ==> 0 <= p.score.value <= 100
    ensures var r := Store.UpdateCandidate(store, p);
      r.currentCandidate.Some? ==> CandidateOk(r.currentCandidate.value)
  {
    if store.currentCandidate.Some? && store.currentCandidate.value.id == p.id {
      var c := store.currentCandidate.value;
      var m := Store.Merge(c, p);
      assert m.answers == c.answers && m.currentQuestionIndex == c.currentQuestionIndex;
      assert CandidateOk(m);
    }
  }

  /** Well-scored answers average to a score on the 0..100 scale. */
  lemma AnswersScoreInRange(answers: seq<Answer>)
    requires |answers| > 0 && AnswersOk(answers)
    ensures 0 <= AiService.FinalScore(answers) <= 100
  {
    assert AiService.ScoresInRange(answers) by {
      forall i | 0 <= i < |answers|
        ensures 0 <= answers[i].score <= 10
      {
        assert AnswerOk(answers[i]);
      }
    }
    AiService.FinalScoreInRange(answers);
  }

  lemma CompleteOk(v: Variant, s: Engine, c: Candidate, reply: Option<string>, now: nat)
    requires Inv(s) && CandidateOk(c)
    ensures Inv(CompleteInterview(v, s, c, reply, now))
  {
    var r := CompleteInterview(v, s, c, reply, now);
    assert r.grading == s.grading && r.continuations == s.continuations;
    if s.store.currentCandidate.Some? {
      var cur := s.store.currentCandidate.value;
      var answers := SummaryAnswers(v, s, c);
      assert AnswersOk(answers);
      if |answers| > 0 {
        AnswersScoreInRange(answers);
      }
      assert CandidateOk(r.store.currentCandidate.value);
    }
  }

  lemma ContinueOk(v: Variant, s: Engine, reply: Option<string>, now: nat)
    requires Inv(s)
    ensures Inv(HandleContinue(v, s, reply, now))
  {
    if s.continuations != [] {
      var c := s.continuations[0].snapshot;
      var s' := s.(continuations := s.continuations[1..]);
      assert Inv(s');
      if c.currentQuestionIndex + 1 >= QuestionCount {
        CompleteOk(v, s', c, reply, now);
      }
    }
  }

  lemma ChatterOk(s: Engine)
    requires Inv(s)
    ensures Inv(HandleChatter(s))
  {
    if s.store.currentCandidate.Some? {
      var c := s.store.currentCandidate.value;
      UpdateOk(s.store, CandidatePatch(c.id, hasBeenPromptedToStart := Some(true)));
    }
  }

  lemma SubmitOk(v: Variant, s: Engine)
    requires Inv(s)
    ensures Inv(HandleSubmit(v, s))
  {
    SubmitRoutes(v, s);
    match SubmitRoute(s)
    case Ignored =>
    case Starting => StartOk(s.(input := ""));
    case Answering => TypedOk(v, s);
    case Chatting => ChatterOk(s);
  }

  lemma StartOk(s: Engine)
    requires Inv(s)
    ensures Inv(StartInterviewProcess(s))
  {
    if s.store.currentCandidate.Some? && !s.generating {
      var c := s.store.currentCandidate.value;
      assert c.(status := InProgress).answers == c.answers;
    }
  }

  lemma TypedOk(v: Variant, s: Engine)
    requires Inv(s) && s.store.currentQuestion.Some?
    ensures Inv(SubmitTyped(v, s))
  {
  }

  lemma QuestionLoadedOk(v: Variant, s: Engine, slot: nat, reply: Option<string>, now: nat)
    requires Inv(s)
    ensures Inv(HandleQuestionLoaded(v, s, slot, reply, now))
  {
  }

  /** Every event keeps the engine invariant. */
  lemma StepOk(v: Variant, s: Engine, e: Event)
    requires Inv(s)
    ensures Inv(Step(v, s, e))
  {
    DispatchOk(v, s, e);
    SettleOk(v, Dispatch(v, s, e));
  }

  lemma DispatchOk(v: Variant, s: Engine, e: Event)
    requires Inv(s)
    ensures Inv(Dispatch(v, s, e))
  {
    match e
    case Submit => SubmitOk(v, s);
    case Keystroke(_) =>
    case Tick =>
    case Visibility(_) =>
    case QuestionLoaded(slot, reply, now) => QuestionLoadedOk(v, s, slot, reply, now);
    case Graded(reply) => GradedOk(s, reply);
    case Continue(reply, now) => ContinueOk(v, s, reply, now);
  }

  /**
   * From a well-formed store, every recorded answer of every run is scored on the 0..10 scale
   * and charged no more than its limit, and the question index counts the answers.
   */
  lemma {:induction false} RunOk(v: Variant, s: Engine, events: seq<Event>)
    requires Inv(s)
    ensures Inv(Run(v, s, events))
    ensures var r := Run(v, s, events);
      r.store.currentCandidate.Some? ==> AnswersOk(r.store.currentCandidate.value.answers)
    decreases |events|
  {
    if |events| > 0 {
      StepOk(v, s, events[0]);
      RunOk(v, Step(v, s, events[0]), events[1..]);
    }
  }

  /**
   * A completed interview's final score lies in 0..100: the summary is computed over answers
   * scored on the 0..10 scale.
   */
  lemma CompletionScoreInRange(v: Variant, s: Engine, reply: Option<string>, now: nat)
    requires Inv(s) && s.continuations != []
    requires s.continuations[0].snapshot.currentQuestionIndex + 1 >= QuestionCount
    requires s.store.currentCandidate.Some? && s.store.currentCandidate.value.id == s.continuations[0].snapshot.id
    ensures var r := Step(v, s, Continue(reply, now));
      && r.store.currentCandidate.Some?
      && r.store.currentCandidate.value.status == Completed
      && r.store.currentCandidate.value.completedAt == Some(now)
      && 0 <= r.store.currentCandidate.value.score <= 100
  {
    StepOk(v, s, Continue(reply, now));
  }
}
