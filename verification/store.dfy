/**
 * The session store: the interview slice's reducers as pure functions from state to state.
 * `Date.now()` and `new Date().toISOString()` are the `now` parameter (milliseconds).
 */
module Store {
  import opened Wrappers
  import opened Types

  const IdleTimer := TimerState(false, None, None, 0, 0, None)

  const InitialState := InterviewState(None, [], false, None, 0, false, Interviewee, IdleTimer)

  /** A timer is never running while it also holds a pause time. */
  predicate TimerConsistent(t: TimerState) {
    !(t.isRunning && t.pausedAt.Some?)
  }

  /** How far the question index runs ahead of the recorded answers. */
  function Lag(c: Candidate): int {
    c.currentQuestionIndex - |c.answers|
  }

  // ---------------------------------------------------------------------------------------
  // Roster and current candidate

  function SetCurrentCandidate(s: InterviewState, c: Candidate): (r: InterviewState)
    ensures r.currentCandidate == Some(c)
    ensures r.(currentCandidate := s.currentCandidate) == s
  {
    s.(currentCandidate := Some(c))
  }

  function AddCandidate(s: InterviewState, c: Candidate): (r: InterviewState)
    ensures |r.candidates| == |s.candidates| + 1
    ensures r.candidates[..|s.candidates|] == s.candidates && r.candidates[|s.candidates|] == c
    ensures r.(candidates := s.candidates) == s
  {
    s.(candidates := s.candidates + [c])
  }

  /** `findIndex(c => c.id === id)`: the first position holding that id, if any. */
  function FindIndex(cs: seq<Candidate>, id: string): (r: Option<nat>)
    ensures r.Some? ==> r.value < |cs| && cs[r.value].id == id
    ensures r.Some? ==> forall j :: 0 <= j < r.value ==> cs[j].id != id
    ensures r.None? <==> forall j :: 0 <= j < |cs| ==> cs[j].id != id
    decreases |cs|
  {
    if |cs| == 0 then None
    else if cs[0].id == id then Some(0)
    else match FindIndex(cs[1..], id)
      case None => None
      case Some(k) => Some(k + 1)
  }

  /** `{ ...c, ...patch }`: every field the patch carries replaces the candidate's own. */
  function Merge(c: Candidate, p: CandidatePatch): Candidate {
    Candidate(
      p.id,
      p.name.GetOr(c.name),
      p.email.GetOr(c.email),
      p.phone.GetOr(c.phone),
      if p.resumeData.Some? then p.resumeData else c.resumeData,
      p.score.GetOr(c.score),
      p.summary.GetOr(c.summary),
      p.status.GetOr(c.status),
      p.createdAt.GetOr(c.createdAt),
      if p.completedAt.Some? then p.completedAt else c.completedAt,
      p.currentQuestionIndex.GetOr(c.currentQuestionIndex),
      p.answers.GetOr(c.answers),
      p.chatHistory.GetOr(c.chatHistory),
      if p.hasSeenWelcome.Some? then p.hasSeenWelcome else c.hasSeenWelcome,
      if p.hasBeenPromptedToStart.Some? then p.hasBeenPromptedToStart else c.hasBeenPromptedToStart)
  }

  /** A patch that carries only the id leaves the candidate with that id as it was. */
  lemma MergeEmptyPatch(c: Candidate)
    ensures Merge(c, CandidatePatch(c.id)) == c
  {
  }

  /** Applying the same patch twice is applying it once. */
  lemma MergeIdempotent(c: Candidate, p: CandidatePatch)
    ensures Merge(Merge(c, p), p) == Merge(c, p)
  {
  }

  /**
   * `updateCandidate`: the first roster entry with the payload's id, and the current candidate
   * when its id matches, receive the patch; nothing else changes.
   */
  function UpdateCandidate(s: InterviewState, p: CandidatePatch): (r: InterviewState)
    ensures |r.candidates| == |s.candidates|
    ensures forall j :: 0 <= j < |s.candidates| ==>
      r.candidates[j] == if FirstWithId(s.candidates, p.id, j) then Merge(s.candidates[j], p) else s.candidates[j]
    ensures s.currentCandidate.Some? && s.currentCandidate.value.id == p.id ==>
      r.currentCandidate == Some(Merge(s.currentCandidate.value, p))
    ensures !(s.currentCandidate.Some? && s.currentCandidate.value.id == p.id) ==>
      r.currentCandidate == s.currentCandidate
    ensures r.(candidates := s.candidates, currentCandidate := s.currentCandidate) == s
  {
    var current := match s.currentCandidate
      case Some(c) => if c.id == p.id then Some(Merge(c, p)) else s.currentCandidate
      case None => None;
    s.(candidates := PatchRoster(s.candidates, p), currentCandidate := current)
  }

  /** Position `j` holds the first roster entry with id `id`. */
  predicate FirstWithId(cs: seq<Candidate>, id: string, j: nat) {
    j < |cs| && cs[j].id == id && forall k :: 0 <= k < j ==> cs[k].id != id
  }

  /** The roster half of `updateCandidate`: only the first entry with the id is patched. */
  function PatchRoster(cs: seq<Candidate>, p: CandidatePatch): (r: seq<Candidate>)
    ensures |r| == |cs|
    ensures forall j :: 0 <= j < |cs| ==> r[j] == if FirstWithId(cs, p.id, j) then Merge(cs[j], p) else cs[j]
  {
    match FindIndex(cs, p.id)
    case None => cs
    case Some(i) => cs[i := Merge(cs[i], p)]
  }

  /**
   * When the current candidate is also in the roster, an update that reaches one reaches the
   * other: after the update the two copies agree on every field the patch carries.
   */
  lemma UpdateReachesBothCopies(s: InterviewState, p: CandidatePatch, i: nat)
    requires s.currentCandidate.Some? && s.currentCandidate.value.id == p.id
    requires i < |s.candidates| && s.candidates[i].id == p.id
    requires forall k :: 0 <= k < i ==> s.candidates[k].id != p.id
    requires s.candidates[i] == s.currentCandidate.value
    ensures var r := UpdateCandidate(s, p); r.currentCandidate == Some(r.candidates[i])
  {
  }

  // ---------------------------------------------------------------------------------------
  // Interview lifecycle (current slot only)

  function StartInterview(s: InterviewState): (r: InterviewState)
    ensures r.isInterviewActive
    ensures r.currentCandidate.Some? <==> s.currentCandidate.Some?
    ensures s.currentCandidate.Some? ==>
      r.currentCandidate.value == s.currentCandidate.value.(status := InProgress)
    ensures r.(isInterviewActive := s.isInterviewActive, currentCandidate := s.currentCandidate) == s
  {
    var current := match s.currentCandidate
      case Some(c) => Some(c.(status := InProgress))
      case None => None;
    s.(isInterviewActive := true, currentCandidate := current)
  }

  function EndInterview(s: InterviewState, now: nat): (r: InterviewState)
    ensures !r.isInterviewActive
    ensures r.currentCandidate.Some? <==> s.currentCandidate.Some?
    ensures s.currentCandidate.Some? ==>
      r.currentCandidate.value == s.currentCandidate.value.(status := Completed, completedAt := Some(now))
    ensures r.(isInterviewActive := s.isInterviewActive, currentCandidate := s.currentCandidate) == s
  {
    var current := match s.currentCandidate
      case Some(c) => Some(c.(status := Completed, completedAt := Some(now)))
      case None => None;
    s.(isInterviewActive := false, currentCandidate := current)
  }

  function SetCurrentQuestion(s: InterviewState, q: Question): (r: InterviewState)
    ensures r.currentQuestion == Some(q) && r.timeRemaining == q.maxTime
    ensures r.(currentQuestion := s.currentQuestion, timeRemaining := s.timeRemaining) == s
  {
    s.(currentQuestion := Some(q), timeRemaining := q.maxTime)
  }

  function UpdateTimeRemaining(s: InterviewState, t: int): (r: InterviewState)
    ensures r.timeRemaining == t && r.(timeRemaining := s.timeRemaining) == s
  {
    s.(timeRemaining := t)
  }

  /** `addAnswer`: appends to the current candidate and advances its question index. */
  function AddAnswer(s: InterviewState, a: Answer): (r: InterviewState)
    ensures s.currentCandidate.None? ==> r == s
    ensures s.currentCandidate.Some? ==>
      && r.currentCandidate.Some?
      && r.currentCandidate.value.answers == s.currentCandidate.value.answers + [a]
      && r.currentCandidate.value.currentQuestionIndex == s.currentCandidate.value.currentQuestionIndex + 1
      && Lag(r.currentCandidate.value) == Lag(s.currentCandidate.value)
      && r.currentCandidate.value.(answers := s.currentCandidate.value.answers,
           currentQuestionIndex := s.currentCandidate.value.currentQuestionIndex) == s.currentCandidate.value
    ensures r.(currentCandidate := s.currentCandidate) == s
  {
    match s.currentCandidate
    case None => s
    case Some(c) =>
      s.(currentCandidate := Some(c.(answers := c.answers + [a], currentQuestionIndex := c.currentQuestionIndex + 1)))
  }

  function AddChatMessage(s: InterviewState, m: ChatMessage): (r: InterviewState)
    ensures s.currentCandidate.None? ==> r == s
    ensures s.currentCandidate.Some? ==>
      r.currentCandidate == Some(s.currentCandidate.value.(chatHistory := s.currentCandidate.value.chatHistory + [m]))
    ensures r.(currentCandidate := s.currentCandidate) == s
  {
    match s.currentCandidate
    case None => s
    case Some(c) => s.(currentCandidate := Some(c.(chatHistory := c.chatHistory + [m])))
  }

  function SetShowWelcomeBack(s: InterviewState, b: bool): (r: InterviewState)
    ensures r.showWelcomeBack == b && r.(showWelcomeBack := s.showWelcomeBack) == s
  {
    s.(showWelcomeBack := b)
  }

  /** `resetCurrentSession`: forgets the session; the roster, tab and timer stay as they were. */
  function ResetCurrentSession(s: InterviewState): (r: InterviewState)
    ensures r.currentCandidate.None? && r.currentQuestion.None?
    ensures !r.isInterviewActive && r.timeRemaining == 0
    ensures r.candidates == s.candidates && r.activeTab == s.activeTab && r.timer == s.timer
    ensures r.showWelcomeBack == s.showWelcomeBack
  {
    s.(currentCandidate := None, isInterviewActive := false, currentQuestion := None, timeRemaining := 0)
  }

  function ClearChatHistory(s: InterviewState): (r: InterviewState)
    ensures s.currentCandidate.None? ==> r == s
    ensures s.currentCandidate.Some? ==>
      r.currentCandidate == Some(s.currentCandidate.value.(chatHistory := []))
    ensures r.(currentCandidate := s.currentCandidate) == s
  {
    match s.currentCandidate
    case None => s
    case Some(c) => s.(currentCandidate := Some(c.(chatHistory := [])))
  }

  // ---------------------------------------------------------------------------------------
  // Timer

  /**
   * `setActiveTab`: leaving the interviewee tab pauses a running timer; returning resumes one
   * that holds a (truthy) pause time while a question is shown. The remaining time is never
   * touched, so time spent on the other tab is not charged.
   */
  function SetActiveTab(s: InterviewState, tab: Tab, now: nat): (r: InterviewState)
    ensures r.activeTab == tab
    ensures r.timer.remaining == s.timer.remaining && r.timeRemaining == s.timeRemaining
    ensures r.timer.totalDuration == s.timer.totalDuration && r.timer.startTime == s.timer.startTime
    ensures s.activeTab == Interviewee && tab == Interviewer ==>
      !r.timer.isRunning && (s.timer.isRunning ==> r.timer.pausedAt == Some(now))
    ensures s.activeTab == Interviewer && tab == Interviewee ==>
      (r.timer.isRunning <==>
        s.timer.isRunning || (Truthy(s.timer.pausedAt) && s.currentQuestion.Some?))
    ensures s.activeTab == tab ==> r == s
    ensures r.(activeTab := s.activeTab, timer := s.timer) == s
  {
    var t := s.timer;
    var timer :=
      if s.activeTab == Interviewee && tab == Interviewer then
        if t.isRunning then t.(isRunning := false, pausedAt := Some(now), lastUpdated := Some(now)) else t
      else if s.activeTab == Interviewer && tab == Interviewee then
        if Truthy(t.pausedAt) && s.currentQuestion.Some? then
          t.(isRunning := true, pausedAt := None, lastUpdated := Some(now))
        else t
      else t;
    s.(timer := timer, activeTab := tab)
  }

  function InitializeTimer(s: InterviewState, duration: int, startTime: int): (r: InterviewState)
    ensures r.timer.isRunning && r.timer.pausedAt.None?
    ensures r.timer.remaining == r.timer.totalDuration == duration
    ensures r.timer.startTime == r.timer.lastUpdated == Some(startTime)
    ensures r.(timer := s.timer) == s
  {
    s.(timer := TimerState(true, Some(startTime), None, duration, duration, Some(startTime)))
  }

  function PauseTimer(s: InterviewState, now: nat): (r: InterviewState)
    ensures !r.timer.isRunning
    ensures s.timer.isRunning ==> r.timer.pausedAt == Some(now) && r.timer.lastUpdated == Some(now)
    ensures !s.timer.isRunning ==> r == s
    ensures r.timer.remaining == s.timer.remaining && r.(timer := s.timer) == s
  {
    if s.timer.isRunning then
      s.(timer := s.timer.(isRunning := false, pausedAt := Some(now), lastUpdated := Some(now)))
    else s
  }

  function ResumeTimer(s: InterviewState, now: nat): (r: InterviewState)
    ensures !s.timer.isRunning && Truthy(s.timer.pausedAt) ==>
      r.timer.isRunning && r.timer.pausedAt.None? && r.timer.lastUpdated == Some(now)
    ensures !(!s.timer.isRunning && Truthy(s.timer.pausedAt)) ==> r == s
    ensures r.timer.remaining == s.timer.remaining && r.(timer := s.timer) == s
  {
    if !s.timer.isRunning && Truthy(s.timer.pausedAt) then
      s.(timer := s.timer.(isRunning := true, pausedAt := None, lastUpdated := Some(now)))
    else s
  }

  /** `updateTimerRemaining`: the timer and the legacy `timeRemaining` receive the same value. */
  function UpdateTimerRemaining(s: InterviewState, v: int, now: nat): (r: InterviewState)
    ensures r.timer.remaining == v && r.timeRemaining == v && r.timer.lastUpdated == Some(now)
    ensures r.timer.isRunning == s.timer.isRunning && r.timer.pausedAt == s.timer.pausedAt
    ensures r.(timer := s.timer, timeRemaining := s.timeRemaining) == s
  {
    s.(timer := s.timer.(remaining := v, lastUpdated := Some(now)), timeRemaining := v)
  }

  // ---------------------------------------------------------------------------------------
  // The slice as one reducer

  datatype Action =
    | SetCurrentCandidateA(candidate: Candidate)
    | AddCandidateA(candidate: Candidate)
    | UpdateCandidateA(patch: CandidatePatch)
    | StartInterviewA
    | EndInterviewA
    | SetCurrentQuestionA(question: Question)
    | UpdateTimeRemainingA(time: int)
    | AddAnswerA(answer: Answer)
    | AddChatMessageA(message: ChatMessage)
    | SetShowWelcomeBackA(show: bool)
    | ResetCurrentSessionA
    | ClearChatHistoryA
    | SetActiveTabA(tab: Tab)
    | InitializeTimerA(duration: int, startTime: int)
    | PauseTimerA
    | ResumeTimerA
    | UpdateTimerRemainingA(value: int)

  /** The slice reducer; `now` is the clock reading at dispatch. */
  function Reduce(s: InterviewState, a: Action, now: nat): InterviewState {
    match a
    case SetCurrentCandidateA(c) => SetCurrentCandidate(s, c)
    case AddCandidateA(c) => AddCandidate(s, c)
    case UpdateCandidateA(p) => UpdateCandidate(s, p)
    case StartInterviewA => StartInterview(s)
    case EndInterviewA => EndInterview(s, now)
    case SetCurrentQuestionA(q) => SetCurrentQuestion(s, q)
    case UpdateTimeRemainingA(t) => UpdateTimeRemaining(s, t)
    case AddAnswerA(ans) => AddAnswer(s, ans)
    case AddChatMessageA(m) => AddChatMessage(s, m)
    case SetShowWelcomeBackA(b) => SetShowWelcomeBack(s, b)
    case ResetCurrentSessionA => ResetCurrentSession(s)
    case ClearChatHistoryA => ClearChatHistory(s)
    case SetActiveTabA(tab) => SetActiveTab(s, tab, now)
    case InitializeTimerA(d, st) => InitializeTimer(s, d, st)
    case PauseTimerA => PauseTimer(s, now)
    case ResumeTimerA => ResumeTimer(s, now)
    case UpdateTimerRemainingA(v) => UpdateTimerRemaining(s, v, now)
  }

  /** Every action keeps the timer consistent, whatever the clock reads. */
  lemma ReducePreservesTimer(s: InterviewState, a: Action, now: nat)
    requires TimerConsistent(s.timer)
    ensures TimerConsistent(Reduce(s, a, now).timer)
  {
  }

  /** The initial state's timer is consistent, so every reachable state's timer is. */
  lemma {:induction false} ReachableTimerConsistent(actions: seq<Action>, clock: seq<nat>)
    requires |clock| == |actions|
    ensures TimerConsistent(ReduceAll(InitialState, actions, clock).timer)
    decreases |actions|
  {
    if |actions| > 0 {
      ReachableTimerConsistent(actions[..|actions| - 1], clock[..|clock| - 1]);
      ReducePreservesTimer(ReduceAll(InitialState, actions[..|actions| - 1], clock[..|clock| - 1]),
        actions[|actions| - 1], clock[|clock| - 1]);
    }
  }

  /** Dispatching a sequence of actions, the i-th at clock reading `clock[i]`. */
  function ReduceAll(s: InterviewState, actions: seq<Action>, clock: seq<nat>): InterviewState
    requires |clock| == |actions|
    decreases |actions|
  {
    if |actions| == 0 then s
    else Reduce(ReduceAll(s, actions[..|actions| - 1], clock[..|clock| - 1]),
      actions[|actions| - 1], clock[|clock| - 1])
  }

  /** Pausing twice is pausing once: the second pause keeps the first pause time. */
  lemma PauseIdempotent(s: InterviewState, t1: nat, t2: nat)
    ensures PauseTimer(PauseTimer(s, t1), t2) == PauseTimer(s, t1)
  {
  }

  /** Resuming twice is resuming once. */
  lemma ResumeIdempotent(s: InterviewState, t1: nat, t2: nat)
    ensures ResumeTimer(ResumeTimer(s, t1), t2) == ResumeTimer(s, t1)
  {
  }

  /**
   * A round trip to the dashboard and back, with a question on screen and a nonzero clock,
   * leaves a running timer running with the same remaining time.
   */
  lemma TabRoundTripResumes(s: InterviewState, t1: nat, t2: nat)
    requires s.activeTab == Interviewee && s.timer.isRunning && s.currentQuestion.Some?
    requires t1 > 0
    ensures var r := SetActiveTab(SetActiveTab(s, Interviewer, t1), Interviewee, t2);
      r.timer.isRunning && r.timer.pausedAt.None? && r.timer.remaining == s.timer.remaining
      && r.timeRemaining == s.timeRemaining && r.activeTab == Interviewee
  {
  }

  /**
   * A pause at clock reading 0 stores a falsy pause time, so coming back does not resume:
   * the truthiness test on `pausedAt` loses the pause.
   */
  lemma PauseAtZeroNotResumed(s: InterviewState, t2: nat)
    requires s.activeTab == Interviewee && s.timer.isRunning && s.currentQuestion.Some?
    ensures !SetActiveTab(SetActiveTab(s, Interviewer, 0), Interviewee, t2).timer.isRunning
  {
  }

  /** A reset never touches the roster: it commutes with adding a candidate. */
  lemma ResetKeepsRoster(s: InterviewState, c: Candidate)
    ensures ResetCurrentSession(AddCandidate(s, c)).candidates == s.candidates + [c]
    ensures AddCandidate(ResetCurrentSession(s), c) == ResetCurrentSession(AddCandidate(s, c))
  {
  }
}
