/**
 * The welcome-back flow: when the page raises the modal for an unfinished session, and
 * what the modal's buttons do to the store.
 */
module WelcomeBack {
  import opened Wrappers
  import opened Types
  import opened Store

  // ---------------------------------------------------------------------------------------
  // The page

  /**
   * An unfinished session worth greeting: a current candidate in progress, with at least
   * one answer, who has not yet seen the greeting.
   */
  predicate WelcomeBackDue(current: Option<Candidate>) {
    && current.Some?
    && current.value.status == InProgress
    && |current.value.answers| > 0
    && !Flag(current.value.hasSeenWelcome)
  }

  /** The page's own state: whether the landing page is still shown. */
  datatype Page = Page(showLanding: bool)

  /**
   * The effect on the current candidate: raise the modal and skip the landing page. It runs
   * on load and again every time the current candidate changes, so it is not confined to a
   * reload: an answer recorded during a live interview changes the candidate too, and the
   * first answer of a candidate who has not dismissed the greeting raises the modal
   * (`FirstAnswerRaisesModal`).
   */
  function LoadEffect(p: Page, s: InterviewState): (r: (Page, InterviewState))
    ensures WelcomeBackDue(s.currentCandidate) ==> r.1 == SetShowWelcomeBack(s, true) && !r.0.showLanding
    ensures !WelcomeBackDue(s.currentCandidate) ==> r == (p, s)
  {
    if WelcomeBackDue(s.currentCandidate) then (Page(false), SetShowWelcomeBack(s, true)) else (p, s)
  }

  /** The effect on the tab: on the interviewee tab the same condition raises the modal. */
  function TabEffect(s: InterviewState): (r: InterviewState)
    ensures s.activeTab == Interviewee && WelcomeBackDue(s.currentCandidate) ==> r == SetShowWelcomeBack(s, true)
    ensures !(s.activeTab == Interviewee && WelcomeBackDue(s.currentCandidate)) ==> r == s
  {
    if s.activeTab == Interviewee && WelcomeBackDue(s.currentCandidate) then SetShowWelcomeBack(s, true) else s
  }

  /** Neither effect ever raises the modal for a candidate who has not answered or is not in progress. */
  lemma NeverRaisedForFreshOrFinished(p: Page, s: InterviewState)
    requires !s.showWelcomeBack
    requires s.currentCandidate.Some?
    requires |s.currentCandidate.value.answers| == 0 || s.currentCandidate.value.status != InProgress
    ensures !LoadEffect(p, s).1.showWelcomeBack
    ensures !TabEffect(s).showWelcomeBack
  {
  }

  /** Both effects raise the modal under the same condition, the tab effect only on its tab. */
  lemma EffectsAgree(p: Page, s: InterviewState)
    requires !s.showWelcomeBack
    ensures TabEffect(s).showWelcomeBack <==> s.activeTab == Interviewee && LoadEffect(p, s).1.showWelcomeBack
  {
  }

  /** `handleStartInterview`: leaves the landing page for the interviewee tab. */
  function HandleStartInterview(p: Page, s: InterviewState, now: nat): (r: (Page, InterviewState))
    ensures !r.0.showLanding && r.1.activeTab == Interviewee
    ensures r.1.candidates == s.candidates && r.1.currentCandidate == s.currentCandidate
  {
    (Page(false), SetActiveTab(s, Interviewee, now))
  }

  // ---------------------------------------------------------------------------------------
  // The modal

  /** The modal renders only while raised and with a current candidate. */
  predicate ModalVisible(s: InterviewState) {
    s.showWelcomeBack && s.currentCandidate.Some?
  }

  /**
   * The modal follows the flow: on a page where it is not yet raised, the load effect shows it
   * exactly when a greeting is due, the tab effect on the interviewee tab likewise, and either
   * button hides it.
   */
  lemma ModalFollowsFlow(p: Page, s: InterviewState)
    ensures !s.showWelcomeBack ==> (ModalVisible(LoadEffect(p, s).1) <==> WelcomeBackDue(s.currentCandidate))
    ensures !s.showWelcomeBack ==>
      (ModalVisible(TabEffect(s)) <==> s.activeTab == Interviewee && WelcomeBackDue(s.currentCandidate))
    ensures !ModalVisible(HandleContinue(s)) && !ModalVisible(HandleStartOver(s))
  {
  }

  /**
   * The load effect is not limited to a reload: in a live interview, recording the first
   * answer of a candidate in progress who has not dismissed the greeting shows the modal.
   */
  lemma FirstAnswerRaisesModal(p: Page, s: InterviewState, a: Answer)
    requires s.currentCandidate.Some? && s.currentCandidate.value.status == InProgress
    requires |s.currentCandidate.value.answers| == 0 && !Flag(s.currentCandidate.value.hasSeenWelcome)
    ensures !WelcomeBackDue(s.currentCandidate)
    ensures ModalVisible(LoadEffect(p, AddAnswer(s, a)).1)
  {
  }

  /** `handleContinue`: the candidate is marked as greeted, in both copies, and the modal hides. */
  function HandleContinue(s: InterviewState): (r: InterviewState)
    ensures !r.showWelcomeBack
    ensures s.currentCandidate.Some? ==>
      r.currentCandidate == Some(s.currentCandidate.value.(hasSeenWelcome := Some(true)))
    ensures s.currentCandidate.None? ==> r == s.(showWelcomeBack := false)
    ensures |r.candidates| == |s.candidates|
    ensures forall j :: 0 <= j < |s.candidates| ==>
      r.candidates[j] == s.candidates[j] || r.candidates[j] == s.candidates[j].(hasSeenWelcome := Some(true))
  {
    var s1 := if s.currentCandidate.Some? then
      UpdateCandidate(s, CandidatePatch(s.currentCandidate.value.id, hasSeenWelcome := Some(true)))
      else s;
    SetShowWelcomeBack(s1, false)
  }

  /** The close button's handler, written out again in the modal. */
  function HandleClose(s: InterviewState): (r: InterviewState)
    ensures !r.showWelcomeBack
  {
    var s1 := match s.currentCandidate
      case Some(c) => UpdateCandidate(s, CandidatePatch(c.id, hasSeenWelcome := Some(true)))
      case None => s;
    s1.(showWelcomeBack := false)
  }

  /** Closing the modal has exactly the effect of continuing. */
  lemma CloseIsContinue(s: InterviewState)
    ensures HandleClose(s) == HandleContinue(s)
  {
  }

  /** `handleStartOver`: the session is forgotten, the roster kept, and the modal hides. */
  function HandleStartOver(s: InterviewState): (r: InterviewState)
    ensures !r.showWelcomeBack && r.currentCandidate.None? && r.currentQuestion.None?
    ensures r.candidates == s.candidates && !r.isInterviewActive
  {
    SetShowWelcomeBack(ResetCurrentSession(s), false)
  }

  /** Once continued or started over, neither page effect raises the modal again. */
  lemma DismissalIsFinal(p: Page, s: InterviewState)
    ensures !LoadEffect(p, HandleContinue(s)).1.showWelcomeBack
    ensures !TabEffect(HandleContinue(s)).showWelcomeBack
    ensures !LoadEffect(p, HandleStartOver(s)).1.showWelcomeBack
    ensures !TabEffect(HandleStartOver(s)).showWelcomeBack
  {
  }

  /** The progress line: questions reached out of six. */
  function Progress(c: Candidate): (r: (nat, nat))
    ensures r.1 == 6
    ensures Lag(c) == 0 ==> r.0 == |c.answers|
  {
    (c.currentQuestionIndex, 6)
  }
}
