/**
 * The three defects of the chat screen's interview engine, each shown on the code as written
 * and ruled out for the corrected code.
 *
 * Time-up re-fires: the time-up effect's condition does not record that the question was
 * already submitted. When the evaluation of a time-up answer finishes, loading ends while the
 * remaining time is still zero, so the effect fires again and the same question is answered
 * a second time.
 *
 * Stale summary: the continuation scheduled after grading holds the candidate as it was when
 * the answer was submitted. On the last question it computes the final score over that
 * candidate's answers, which do not yet include the answer just graded.
 *
 * Stale generating flag: that continuation also consults the generating flag as it was when
 * the answer was submitted. Two answers graded for the same question leave two
 * continuations, each holding a lowered flag, and both start a generation: two run at once.
 */
module ChatFindings {
  import opened Wrappers
  import opened Text
  import opened Types
  import Store
  import AiService
  import opened ChatInterface
  import ChatProperties

  function NumAnswers(s: Engine): nat {
    match s.store.currentCandidate
    case Some(c) => |c.answers|
    case None => 0
  }

  // ---------------------------------------------------------------------------------------
  // Time-up re-fires

  /** Running two or three events is stepping through them in order. */
  lemma RunTwo(v: Variant, s: Engine, e1: Event, e2: Event)
    ensures Run(v, s, [e1, e2]) == Step(v, Step(v, s, e1), e2)
  {
    var s1 := Step(v, s, e1);
    var s2 := Step(v, s1, e2);
    assert [e1, e2][1..] == [e2];
    assert Run(v, s, [e1, e2]) == Run(v, s1, [e2]);
    assert [e2][1..] == [];
    assert Run(v, s1, [e2]) == Run(v, s2, []);
  }

  lemma RunThree(v: Variant, s: Engine, e1: Event, e2: Event, e3: Event)
    ensures Run(v, s, [e1, e2, e3]) == Step(v, Step(v, Step(v, s, e1), e2), e3)
  {
    assert [e1, e2, e3][1..] == [e2, e3];
    RunTwo(v, Step(v, s, e1), e2, e3);
  }

  /** One second left on a shown question of an active interview, the countdown running. */
  predicate LastSecond(s: Engine) {
    && s.store.currentCandidate.Some? && s.store.currentQuestion.Some?
    && s.store.isInterviewActive && s.store.timeRemaining == 1
    && s.timerStarted && s.pageVisible && s.grading.None?
  }

  /** Time-up answers to question `q`, charged its full time. */
  predicate TimeUpFor(p: Submission, q: Question) {
    p.question == q && p.timeSpent == q.maxTime && p.timeUp
  }

  /** The last second ticks away and the time-up effect submits, in both variants. */
  lemma LastTick(v: Variant, s: Engine)
    requires LastSecond(s) && (v == Corrected ==> !s.submitted)
    ensures var r := Step(v, s, Tick);
      && r.store == s.store.(timeRemaining := 0)
      && r.grading.Some? && TimeUpFor(r.grading.value, s.store.currentQuestion.value)
      && r.submitted
  {
    var d := Dispatch(v, s, Tick);
    assert d == HandleTick(s);
    assert TimeUpDue(v, d);
  }

  /**
   * A time-up answer is graded while no time is left. As written, loading ends with the
   * time still at zero, so the effect submits the same question once more.
   */
  lemma GradedTimeUpAsWritten(s: Engine, reply: Option<string>)
    requires s.store.currentCandidate.Some? && s.store.currentQuestion.Some? && s.store.isInterviewActive
    requires s.store.timeRemaining == 0
    requires s.grading.Some? && TimeUpFor(s.grading.value, s.store.currentQuestion.value)
    ensures var r := Step(AsWritten, s, Graded(reply));
      && r.store.currentCandidate.Some?
      && r.store.currentCandidate.value.answers == s.store.currentCandidate.value.answers + [GradedAnswer(s, reply)]
      && r.store.currentQuestion == s.store.currentQuestion && r.store.timeRemaining == 0 && r.store.isInterviewActive
      && r.grading.Some? && TimeUpFor(r.grading.value, s.store.currentQuestion.value)
  {
    DispatchGraded(AsWritten, s, reply);
    var d := HandleGraded(s, reply);
    GradedStore(s, reply);
    assert TimeUpDue(AsWritten, d);
    assert Step(AsWritten, s, Graded(reply)) == HandleTimeUp(d);
  }

  /** Grading records the answer in the store and touches nothing else there. */
  lemma GradedStore(s: Engine, reply: Option<string>)
    requires s.store.currentCandidate.Some? && s.grading.Some?
    ensures var d := HandleGraded(s, reply);
      && d.grading.None?
      && d.store.currentCandidate.Some?
      && d.store.currentCandidate.value.answers == s.store.currentCandidate.value.answers + [GradedAnswer(s, reply)]
      && d.store.currentQuestion == s.store.currentQuestion
      && d.store.timeRemaining == s.store.timeRemaining
      && d.store.isInterviewActive == s.store.isInterviewActive
  {
  }

  /** Corrected: once graded, the submitted question is not submitted again. */
  lemma GradedTimeUpCorrected(s: Engine, reply: Option<string>)
    requires s.grading.Some? && s.submitted
    ensures Step(Corrected, s, Graded(reply)) == HandleGraded(s, reply)
  {
    DispatchGraded(Corrected, s, reply);
    SubmittedNotDue(HandleGraded(s, reply));
  }

  lemma DispatchGraded(v: Variant, s: Engine, reply: Option<string>)
    ensures Dispatch(v, s, Graded(reply)) == HandleGraded(s, reply)
  {
  }

  lemma SubmittedNotDue(s: Engine)
    requires s.submitted
    ensures !TimeUpDue(Corrected, s)
  {
  }

  lemma TimeLeftNotDue(v: Variant, s: Engine)
    requires s.store.timeRemaining > 0
    ensures !TimeUpDue(v, s)
  {
  }

  /**
   * As written: the last second ticks away, the time-up answer is graded, and the effect
   * submits the same question again; a second evaluation records a second answer to it.
   */
  lemma TimeUpRefiresAsWritten(s: Engine, reply1: Option<string>, reply2: Option<string>)
    requires LastSecond(s)
    ensures var r := Run(AsWritten, s, [Tick, Graded(reply1), Graded(reply2)]);
      var before := s.store.currentCandidate.value.answers;
      && r.store.currentCandidate.Some?
      && |r.store.currentCandidate.value.answers| == |before| + 2
      && r.store.currentCandidate.value.answers[|before|].questionId == s.store.currentQuestion.value.id
      && r.store.currentCandidate.value.answers[|before| + 1].questionId == s.store.currentQuestion.value.id
  {
    var before := s.store.currentCandidate.value.answers;
    var id := s.store.currentQuestion.value.id;
    RunThree(AsWritten, s, Tick, Graded(reply1), Graded(reply2));
    LastTick(AsWritten, s);
    var s1 := Step(AsWritten, s, Tick);
    GradedTimeUpAsWritten(s1, reply1);
    var s2 := Step(AsWritten, s1, Graded(reply1));
    assert GradedAnswer(s1, reply1).questionId == id;
    GradedTimeUpAsWritten(s2, reply2);
    var s3 := Step(AsWritten, s2, Graded(reply2));
    assert GradedAnswer(s2, reply2).questionId == id;
    assert s3.store.currentCandidate.value.answers == before + [GradedAnswer(s1, reply1)] + [GradedAnswer(s2, reply2)];
  }

  /** Corrected: the same events record the time-up answer once. */
  lemma TimeUpOnceCorrected(s: Engine, reply1: Option<string>, reply2: Option<string>)
    requires LastSecond(s) && !s.submitted
    ensures var r := Run(Corrected, s, [Tick, Graded(reply1), Graded(reply2)]);
      && r.store.currentCandidate.Some?
      && |r.store.currentCandidate.value.answers| == |s.store.currentCandidate.value.answers| + 1
  {
    RunThree(Corrected, s, Tick, Graded(reply1), Graded(reply2));
    LastTick(Corrected, s);
    var s1 := Step(Corrected, s, Tick);
    GradedTimeUpCorrected(s1, reply1);
    var s2 := Step(Corrected, s1, Graded(reply1));
    DispatchGraded(Corrected, s2, reply2);
    SubmittedNotDue(s2);
  }

  /** A pending evaluation was submitted for the question shown. */
  predicate GradingSubmitted(s: Engine) {
    s.grading.Some? ==> s.submitted
  }

  /** The one answer the shown question may still receive: none once submitted and graded. */
  function Budget(s: Engine): nat {
    if s.submitted && s.grading.None? then 0 else 1
  }

  lemma CompleteKeepsAnswers(s: Engine, c: Candidate, reply: Option<string>, now: nat)
    ensures NumAnswers(CompleteInterview(Corrected, s, c, reply, now)) == NumAnswers(s)
  {
  }

  lemma ChatterKeepsAnswers(s: Engine)
    ensures NumAnswers(HandleChatter(s)) == NumAnswers(s)
  {
    if s.store.currentCandidate.Some? {
      var c := s.store.currentCandidate.value;
      var p := CandidatePatch(c.id, hasBeenPromptedToStart := Some(true));
      assert Store.Merge(c, p).answers == c.answers;
    }
  }

  lemma SubmitBudget(s: Engine)
    requires GradingSubmitted(s)
    ensures var d := HandleSubmit(Corrected, s);
      GradingSubmitted(d) && NumAnswers(d) + Budget(d) <= NumAnswers(s) + Budget(s)
  {
    ChatInterface.SubmitRoutes(Corrected, s);
    match SubmitRoute(s)
    case Ignored =>
    case Starting => StartingBudget(s);
    case Answering => AnsweringBudget(s);
    case Chatting => ChatterBudget(s);
  }

  lemma StartingBudget(s: Engine)
    requires GradingSubmitted(s)
    ensures var d := StartInterviewProcess(s.(input := ""));
      GradingSubmitted(d) && NumAnswers(d) + Budget(d) <= NumAnswers(s) + Budget(s)
  {
  }

  lemma AnsweringBudget(s: Engine)
    requires GradingSubmitted(s) && s.store.currentQuestion.Some?
    ensures var d := SubmitTyped(Corrected, s);
      GradingSubmitted(d) && NumAnswers(d) + Budget(d) <= NumAnswers(s) + Budget(s)
  {
  }

  lemma ChatterBudget(s: Engine)
    requires GradingSubmitted(s)
    ensures var d := HandleChatter(s);
      GradingSubmitted(d) && NumAnswers(d) + Budget(d) <= NumAnswers(s) + Budget(s)
  {
    ChatterKeepsAnswers(s);
  }

  lemma ContinueBudget(s: Engine, reply: Option<string>, now: nat)
    requires GradingSubmitted(s)
    ensures var d := HandleContinue(Corrected, s, reply, now);
      GradingSubmitted(d) && NumAnswers(d) + Budget(d) <= NumAnswers(s) + Budget(s)
  {
    if s.continuations != [] && s.continuations[0].snapshot.currentQuestionIndex + 1 >= QuestionCount {
      CompleteKeepsAnswers(s.(continuations := s.continuations[1..]), s.continuations[0].snapshot, reply, now);
    }
  }

  lemma DispatchBudget(s: Engine, e: Event)
    requires GradingSubmitted(s) && !e.QuestionLoaded?
    ensures var d := Dispatch(Corrected, s, e);
      GradingSubmitted(d) && NumAnswers(d) + Budget(d) <= NumAnswers(s) + Budget(s)
  {
    match e
    case Submit => SubmitBudget(s);
    case Keystroke(_) =>
    case Tick =>
    case Visibility(_) =>
    case Graded(_) =>
    case Continue(reply, now) => ContinueBudget(s, reply, now);
  }

  /** Every event but a question's arrival spends at most the answer the budget holds. */
  lemma StepBudget(s: Engine, e: Event)
    requires GradingSubmitted(s) && !e.QuestionLoaded?
    ensures var r := Step(Corrected, s, e);
      GradingSubmitted(r) && NumAnswers(r) + Budget(r) <= NumAnswers(s) + Budget(s)
  {
    DispatchBudget(s, e);
  }

  /**
   * Corrected: between two question arrivals the shown question is answered at most once,
   * whatever the user types, however the countdown runs, and whatever the evaluator replies.
   */
  lemma {:induction false} CorrectedOneAnswerPerQuestion(s: Engine, events: seq<Event>)
    requires GradingSubmitted(s)
    requires forall i :: 0 <= i < |events| ==> !events[i].QuestionLoaded?
    ensures NumAnswers(Run(Corrected, s, events)) <= NumAnswers(s) + Budget(s) <= NumAnswers(s) + 1
    decreases |events|
  {
    if |events| > 0 {
      StepBudget(s, events[0]);
      var s' := Step(Corrected, s, events[0]);
      assert forall i :: 0 <= i < |events[1..]| ==> !events[1..][i].QuestionLoaded? by {
        forall i | 0 <= i < |events[1..]|
          ensures !events[1..][i].QuestionLoaded?
        {
          assert events[1..][i] == events[i + 1];
        }
      }
      CorrectedOneAnswerPerQuestion(s', events[1..]);
    }
  }

  /** A newly arrived question re-opens the budget of the corrected engine. */
  lemma QuestionReopensBudget(s: Engine, slot: nat, reply: Option<string>, now: nat)
    requires slot < |s.requests| && s.grading.None?
    ensures var r := Step(Corrected, s, QuestionLoaded(slot, reply, now));
      GradingSubmitted(r) && (r.grading.None? ==> Budget(r) == 1)
  {
  }

  // ---------------------------------------------------------------------------------------
  // Stale summary

  /**
   * The last answer is being graded: the candidate stands at the last question with five
   * answers recorded, the submission holds that candidate, and time is left on the clock.
   */
  predicate GradingLastAnswer(s: Engine) {
    && s.store.currentCandidate.Some?
    && s.grading.Some?
    && s.grading.value.snapshot == s.store.currentCandidate.value
    && s.store.currentCandidate.value.currentQuestionIndex == QuestionCount - 1
    && s.continuations == []
    && s.store.timeRemaining > 0
  }

  /** The answer recorded when the pending submission is graded with `reply`. */
  function GradedAnswer(s: Engine, reply: Option<string>): Answer
    requires s.grading.Some?
  {
    var p := s.grading.value;
    MakeAnswer(p, AiService.EvaluateAnswer(p.answer, p.question.difficulty, reply))
  }

  /**
   * Grading the last answer and running its continuation is completing the interview with
   * the candidate the submission captured, after the answer has been recorded.
   */
  lemma LastAnswerTrace(v: Variant, s: Engine, evalReply: Option<string>, summaryReply: Option<string>, now: nat)
    requires GradingLastAnswer(s)
    ensures var s1 := HandleGraded(s, evalReply);
      && s1.store.currentCandidate.Some?
      && s1.store.currentCandidate.value.id == s.store.currentCandidate.value.id
      && s1.store.currentCandidate.value.answers == s.store.currentCandidate.value.answers + [GradedAnswer(s, evalReply)]
      && Run(v, s, [Graded(evalReply), Continue(summaryReply, now)]) ==
           CompleteInterview(v, s1.(continuations := []), s.store.currentCandidate.value, summaryReply, now)
  {
    var k := Continuation(s.store.currentCandidate.value, s.grading.value.generating);
    LastGraded(v, s, evalReply);
    var s1 := Step(v, s, Graded(evalReply));
    assert s1.continuations == [k];
    LastContinue(v, s1, k, summaryReply, now);
    RunTwo(v, s, Graded(evalReply), Continue(summaryReply, now));
  }

  /** With time left, grading the last answer records it and nothing fires after it. */
  lemma LastGraded(v: Variant, s: Engine, reply: Option<string>)
    requires s.grading.Some? && s.store.timeRemaining > 0
    ensures Step(v, s, Graded(reply)) == HandleGraded(s, reply)
  {
    DispatchGraded(v, s, reply);
    TimeLeftNotDue(v, HandleGraded(s, reply));
  }

  /** The continuation of the last question completes the interview and nothing fires after it. */
  lemma LastContinue(v: Variant, s: Engine, k: Continuation, reply: Option<string>, now: nat)
    requires s.continuations == [k] && k.snapshot.currentQuestionIndex + 1 >= QuestionCount
    ensures Step(v, s, Continue(reply, now)) == CompleteInterview(v, s.(continuations := []), k.snapshot, reply, now)
  {
    DispatchContinue(v, s, reply, now);
    assert s.continuations[1..] == [];
    var d := CompleteInterview(v, s.(continuations := []), k.snapshot, reply, now);
    assert HandleContinue(v, s, reply, now) == d;
    InactiveNotDue(v, d);
  }

  lemma DispatchContinue(v: Variant, s: Engine, reply: Option<string>, now: nat)
    ensures Dispatch(v, s, Continue(reply, now)) == HandleContinue(v, s, reply, now)
  {
  }

  lemma InactiveNotDue(v: Variant, s: Engine)
    requires !s.store.isInterviewActive
    ensures !TimeUpDue(v, s)
  {
  }

  /**
   * As written: grading the last answer and running its continuation completes the
   * interview with a final score over the answers before the last one; without a
   * summary reply, the fallback summary text is the band of that stale score.
   */
  lemma StaleSummaryAsWritten(s: Engine, evalReply: Option<string>, summaryReply: Option<string>, now: nat)
    requires GradingLastAnswer(s) && |s.store.currentCandidate.value.answers| > 0
    ensures var r := Run(AsWritten, s, [Graded(evalReply), Continue(summaryReply, now)]);
      var before := s.store.currentCandidate.value.answers;
      && r.store.currentCandidate.Some?
      && r.store.currentCandidate.value.status == Completed
      && r.store.currentCandidate.value.answers == before + [GradedAnswer(s, evalReply)]
      && r.store.currentCandidate.value.score == AiService.FinalScore(before)
      && (summaryReply.Some? ==> r.store.currentCandidate.value.summary == Trim(summaryReply.value))
      && (summaryReply.None? ==>
            r.store.currentCandidate.value.summary == AiService.SummaryText(AiService.BandOf(AiService.FinalScore(before))))
  {
    LastAnswerTrace(AsWritten, s, evalReply, summaryReply, now);
  }

  /**
   * Corrected: grading the last answer and running its continuation completes the
   * interview with a final score over every recorded answer, the last one included;
   * the summary is the trimmed reply, or else the band text of that final score.
   */
  lemma SummaryCoversEveryAnswer(s: Engine, evalReply: Option<string>, summaryReply: Option<string>, now: nat)
    requires GradingLastAnswer(s)
    ensures var r := Run(Corrected, s, [Graded(evalReply), Continue(summaryReply, now)]);
      var all := s.store.currentCandidate.value.answers + [GradedAnswer(s, evalReply)];
      && r.store.currentCandidate.Some?
      && r.store.currentCandidate.value.status == Completed
      && r.store.currentCandidate.value.answers == all
      && r.store.currentCandidate.value.score == AiService.FinalScore(all)
      && (summaryReply.Some? ==> r.store.currentCandidate.value.summary == Trim(summaryReply.value))
      && (summaryReply.None? ==>
            r.store.currentCandidate.value.summary == AiService.SummaryText(AiService.BandOf(AiService.FinalScore(all))))
  {
    LastAnswerTrace(Corrected, s, evalReply, summaryReply, now);
  }

  /**
   * As written, scores 9, 8, 7, 6, 8 and a last answer scored 7 give a final score of 76,
   * the average of the first five; the average of all six is 75.
   */
  lemma StaleSummaryExample(a: seq<Answer>)
    requires |a| == 6
    requires a[0].score == 9 && a[1].score == 8 && a[2].score == 7
    requires a[3].score == 6 && a[4].score == 8 && a[5].score == 7
    ensures AiService.FinalScore(a[..5]) == 76
    ensures AiService.FinalScore(a) == 75
  {
    AiService.SixAnswerTotals(a);
    AiService.SixAnswerScore(a);
    assert AiService.FinalScore(a[..5]) == 765 / 10;
  }

  // ---------------------------------------------------------------------------------------
  // Stale generating flag

  /**
   * A question shown with time left on an active interview, with nothing graded, generated
   * or scheduled.
   */
  predicate Answerable(s: Engine) {
    && s.store.currentCandidate.Some? && s.store.currentQuestion.Some?
    && s.store.isInterviewActive && s.store.timeRemaining > 0
    && s.grading.None? && !s.generating && s.requests == [] && s.continuations == []
  }

  /**
   * As written, a typed answer is submitted with the candidate and the flag of the current
   * render; the store, the generations and the continuations stay as they are.
   */
  lemma TypedSubmitStep(s: Engine)
    requires s.store.currentCandidate.Some? && s.store.currentQuestion.Some? && s.store.isInterviewActive
    requires s.store.timeRemaining > 0 && s.grading.None? && !IsBlank(s.input)
    ensures var r := Step(AsWritten, s, Submit);
      && r.store == s.store && r.generating == s.generating && r.requests == s.requests
      && r.continuations == s.continuations
      && r.grading.Some? && r.grading.value.snapshot == s.store.currentCandidate.value
      && r.grading.value.generating == s.generating
  {
    ChatProperties.SubmitAnswerRecordsTime(AsWritten, s);
  }

  /**
   * With time left, grading records the answer, advances the candidate's index and schedules
   * the continuation with what the submitting closure captured.
   */
  lemma GradedStep(v: Variant, s: Engine, reply: Option<string>)
    requires s.store.currentCandidate.Some? && s.grading.Some? && s.store.timeRemaining > 0
    ensures var r := Step(v, s, Graded(reply)); var p := s.grading.value;
      && r.grading.None?
      && r.store.currentCandidate.Some?
      && r.store.currentCandidate.value.currentQuestionIndex == s.store.currentCandidate.value.currentQuestionIndex + 1
      && r.store.currentQuestion == s.store.currentQuestion && r.store.timeRemaining == s.store.timeRemaining
      && r.store.isInterviewActive == s.store.isInterviewActive
      && r.generating == s.generating && r.requests == s.requests
      && r.continuations == s.continuations + [Continuation(p.snapshot, p.generating)]
  {
    LastGraded(v, s, reply);
    GradedStore(s, reply);
  }

  /** Typing into a shown question with time left replaces the input and nothing the finding needs. */
  lemma TypeStep(v: Variant, s: Engine, text: string)
    requires s.store.currentQuestion.Some? && s.store.isInterviewActive && s.store.timeRemaining > 0
    requires s.grading.None?
    ensures var r := Step(v, s, Keystroke(text));
      && r.input == text && r.store == s.store && r.grading.None?
      && r.generating == s.generating && r.requests == s.requests && r.continuations == s.continuations
  {
    TimeLeftNotDue(v, HandleKeystroke(s, text));
  }

  /** With time left, a continuation before the last question is `loadNextQuestion` of its closure. */
  lemma ContinueStep(v: Variant, s: Engine, reply: Option<string>, now: nat)
    requires s.continuations != [] && s.continuations[0].snapshot.currentQuestionIndex + 1 < QuestionCount
    requires s.store.timeRemaining > 0
    ensures Step(v, s, Continue(reply, now)) ==
      LoadNextQuestion(v, s.(continuations := s.continuations[1..]), s.continuations[0])
  {
    DispatchContinue(v, s, reply, now);
    TimeLeftNotDue(v, HandleContinue(v, s, reply, now));
  }

  /** Running `a` then `b` is running `a + b`. */
  lemma {:induction false} RunAppend(v: Variant, s: Engine, a: seq<Event>, b: seq<Event>)
    ensures Run(v, s, a + b) == Run(v, Run(v, s, a), b)
    decreases |a|
  {
    if |a| > 0 {
      assert (a + b)[0] == a[0];
      assert (a + b)[1..] == a[1..] + b;
      RunAppend(v, Step(v, s, a[0]), a[1..], b);
    } else {
      assert a + b == b;
    }
  }

  /** As written, the first answer is submitted and graded: its continuation holds a lowered flag. */
  lemma FirstAnswerGraded(s: Engine, r1: Option<string>)
    requires Answerable(s) && !IsBlank(s.input)
    ensures var r := Run(AsWritten, s, [Submit, Graded(r1)]);
      && r.store.currentCandidate.Some?
      && r.store.currentCandidate.value.currentQuestionIndex == s.store.currentCandidate.value.currentQuestionIndex + 1
      && r.store.currentQuestion.Some? && r.store.isInterviewActive && r.store.timeRemaining > 0
      && r.grading.None? && !r.generating && r.requests == []
      && r.continuations == [Continuation(s.store.currentCandidate.value, false)]
  {
    RunTwo(AsWritten, s, Submit, Graded(r1));
    TypedSubmitStep(s);
    GradedStep(AsWritten, Step(AsWritten, s, Submit), r1);
  }

  /**
   * As written, with one continuation scheduled and no submission pending, a second typed
   * answer to the same question is accepted and graded: a second continuation is scheduled,
   * holding a lowered flag as well.
   */
  lemma SecondAnswerGraded(s: Engine, k: Continuation, text: string, r2: Option<string>)
    requires s.store.currentCandidate.Some? && s.store.currentQuestion.Some? && s.store.isInterviewActive
    requires s.store.timeRemaining > 0 && s.grading.None? && !s.generating && s.requests == []
    requires s.continuations == [k] && !IsBlank(text)
    ensures var r := Run(AsWritten, s, [Keystroke(text), Submit, Graded(r2)]);
      && r.store.timeRemaining > 0 && !r.generating && r.requests == []
      && r.continuations == [k, Continuation(s.store.currentCandidate.value, false)]
  {
    RunThree(AsWritten, s, Keystroke(text), Submit, Graded(r2));
    TypeStep(AsWritten, s, text);
    SubmitThenGrade(Step(AsWritten, s, Keystroke(text)), k, r2);
  }

  /** With an answer typed, submitting and grading it schedules a continuation with a lowered flag. */
  lemma SubmitThenGrade(s1: Engine, k: Continuation, r2: Option<string>)
    requires s1.store.currentCandidate.Some? && s1.store.currentQuestion.Some? && s1.store.isInterviewActive
    requires s1.store.timeRemaining > 0 && s1.grading.None? && !s1.generating && s1.requests == []
    requires s1.continuations == [k] && !IsBlank(s1.input)
    ensures var r := Step(AsWritten, Step(AsWritten, s1, Submit), Graded(r2));
      && r.store.timeRemaining > 0 && !r.generating && r.requests == []
      && r.continuations == [k, Continuation(s1.store.currentCandidate.value, false)]
  {
    TypedSubmitStep(s1);
    GradedStep(AsWritten, Step(AsWritten, s1, Submit), r2);
  }

  /**
   * As written, two continuations before the last question, each holding a lowered flag,
   * both start a generation.
   */
  lemma BothContinuationsGenerate(s: Engine, a: Candidate, b: Candidate, r3: Option<string>, n1: nat,
                                  r4: Option<string>, n2: nat)
    requires s.continuations == [Continuation(a, false), Continuation(b, false)]
    requires a.currentQuestionIndex + 1 < QuestionCount && b.currentQuestionIndex + 1 < QuestionCount
    requires s.store.timeRemaining > 0 && !s.generating && s.requests == []
    ensures var r := Run(AsWritten, s, [Continue(r3, n1), Continue(r4, n2)]);
      var i := a.currentQuestionIndex + 1;
      var j := b.currentQuestionIndex + 1;
      r.generating && r.requests == [GenRequest(DifficultyAt(i), i), GenRequest(DifficultyAt(j), j)]
  {
    RunTwo(AsWritten, s, Continue(r3, n1), Continue(r4, n2));
    ContinueStep(AsWritten, s, r3, n1);
    var s1 := Step(AsWritten, s, Continue(r3, n1));
    assert s1.continuations == [Continuation(b, false)];
    ContinueStep(AsWritten, s1, r4, n2);
  }

  /**
   * As written: two typed answers are submitted for the same question and both are graded;
   * each continuation consults the lowered flag its closure captured, so the next two
   * questions are generated at once.
   */
  lemma DoubleGenerationAsWritten(s: Engine, text: string, r1: Option<string>, r2: Option<string>,
                                  r3: Option<string>, r4: Option<string>, n1: nat, n2: nat)
    requires Answerable(s) && !IsBlank(s.input) && !IsBlank(text)
    requires s.store.currentCandidate.value.currentQuestionIndex + 2 < QuestionCount
    ensures var r := Run(AsWritten, s,
        [Submit, Graded(r1)] + [Keystroke(text), Submit, Graded(r2)] + [Continue(r3, n1), Continue(r4, n2)]);
      var i := s.store.currentCandidate.value.currentQuestionIndex;
      && r.generating
      && r.requests == [GenRequest(DifficultyAt(i + 1), i + 1), GenRequest(DifficultyAt(i + 2), i + 2)]
      && !ChatProperties.SingleFlight(r)
  {
    var first := [Submit, Graded(r1)];
    var second := [Keystroke(text), Submit, Graded(r2)];
    var last := [Continue(r3, n1), Continue(r4, n2)];
    DoublePhases(s, text, r1, r2, r3, r4, n1, n2);
    RunAppend(AsWritten, s, first + second, last);
    RunAppend(AsWritten, s, first, second);
  }

  /** The three phases of the run above, each from where the previous one ends. */
  lemma DoublePhases(s: Engine, text: string, r1: Option<string>, r2: Option<string>,
                     r3: Option<string>, r4: Option<string>, n1: nat, n2: nat)
    requires Answerable(s) && !IsBlank(s.input) && !IsBlank(text)
    requires s.store.currentCandidate.value.currentQuestionIndex + 2 < QuestionCount
    ensures var s2 := Run(AsWritten, s, [Submit, Graded(r1)]);
      var s5 := Run(AsWritten, s2, [Keystroke(text), Submit, Graded(r2)]);
      var r := Run(AsWritten, s5, [Continue(r3, n1), Continue(r4, n2)]);
      var i := s.store.currentCandidate.value.currentQuestionIndex;
      r.generating && r.requests == [GenRequest(DifficultyAt(i + 1), i + 1), GenRequest(DifficultyAt(i + 2), i + 2)]
  {
    FirstAnswerGraded(s, r1);
    LaterPhases(Run(AsWritten, s, [Submit, Graded(r1)]), s.store.currentCandidate.value, text, r2, r3, r4, n1, n2);
  }

  /** The second and third phases, from the state the first one leaves. */
  lemma LaterPhases(s2: Engine, c: Candidate, text: string, r2: Option<string>,
                    r3: Option<string>, r4: Option<string>, n1: nat, n2: nat)
    requires s2.store.currentCandidate.Some?
    requires s2.store.currentCandidate.value.currentQuestionIndex == c.currentQuestionIndex + 1
    requires s2.store.currentQuestion.Some? && s2.store.isInterviewActive && s2.store.timeRemaining > 0
    requires s2.grading.None? && !s2.generating && s2.requests == []
    requires s2.continuations == [Continuation(c, false)]
    requires !IsBlank(text) && c.currentQuestionIndex + 2 < QuestionCount
    ensures var s5 := Run(AsWritten, s2, [Keystroke(text), Submit, Graded(r2)]);
      var r := Run(AsWritten, s5, [Continue(r3, n1), Continue(r4, n2)]);
      var i := c.currentQuestionIndex;
      r.generating && r.requests == [GenRequest(DifficultyAt(i + 1), i + 1), GenRequest(DifficultyAt(i + 2), i + 2)]
  {
    SecondAnswerGraded(s2, Continuation(c, false), text, r2);
    var s5 := Run(AsWritten, s2, [Keystroke(text), Submit, Graded(r2)]);
    BothContinuationsGenerate(s5, c, s2.store.currentCandidate.value, r3, n1, r4, n2);
  }

  /** Corrected: from at most one generation in flight, every run keeps at most one. */
  lemma {:induction false} CorrectedSingleFlight(s: Engine, events: seq<Event>)
    requires ChatProperties.SingleFlight(s)
    ensures ChatProperties.SingleFlight(Run(Corrected, s, events))
    decreases |events|
  {
    if |events| > 0 {
      ChatProperties.GenerationSingleFlight(s, events[0]);
      CorrectedSingleFlight(Step(Corrected, s, events[0]), events[1..]);
    }
  }

  /** Corrected: whatever happens after mounting, at most one generation is ever in flight. */
  lemma MountedSingleFlight(store: InterviewState, events: seq<Event>)
    ensures ChatProperties.SingleFlight(Run(Corrected, Mount(store), events))
  {
    CorrectedSingleFlight(Mount(store), events);
  }
}
