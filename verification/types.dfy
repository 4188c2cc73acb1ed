/**
 * The application's records. Timestamps (`Date.now()` values and the ISO strings derived
 * from them) are whole milliseconds since the epoch; optional and nullable fields are
 * `Option`s; every other field is required.
 */
module Types {
  import opened Wrappers

  /** Question and answer difficulty: 'easy' | 'medium' | 'hard'. */
  datatype Difficulty = Easy | Medium | Hard

  /** Candidate status: 'pending' | 'in-progress' | 'completed'. */
  datatype Status = Pending | InProgress | Completed

  /** Chat message author: 'user' | 'bot' | 'system'. */
  datatype MessageType = User | Bot | System

  /** The two tabs of the application. */
  datatype Tab = Interviewee | Interviewer

  /** What the parser extracted from an uploaded resume. */
  datatype ResumeData = ResumeData(
    skills: seq<string>,
    experience: seq<string>,
    projects: seq<string>,
    technologies: seq<string>,
    text: string,
    fileName: Option<string>)

  datatype Answer = Answer(
    questionId: string,
    question: string,
    answer: string,
    difficulty: Difficulty,
    timeSpent: int,
    maxTime: int,
    score: int,
    feedback: string)

  datatype ChatMessage = ChatMessage(id: string, kind: MessageType, content: string, timestamp: nat)

  datatype Question = Question(
    id: string,
    question: string,
    difficulty: Difficulty,
    maxTime: int,
    category: string)

  datatype Candidate = Candidate(
    id: string,
    name: string,
    email: string,
    phone: string,
    resumeData: Option<ResumeData>,
    score: int,
    summary: string,
    status: Status,
    createdAt: nat,
    completedAt: Option<nat>,
    currentQuestionIndex: nat,
    answers: seq<Answer>,
    chatHistory: seq<ChatMessage>,
    hasSeenWelcome: Option<bool>,
    hasBeenPromptedToStart: Option<bool>)

  /**
   * `Partial<Candidate> & { id: string }`: the fields an update overwrites. `None` is a field
   * the payload does not carry.
   */
  datatype CandidatePatch = CandidatePatch(
    id: string,
    name: Option<string> := None,
    email: Option<string> := None,
    phone: Option<string> := None,
    resumeData: Option<ResumeData> := None,
    score: Option<int> := None,
    summary: Option<string> := None,
    status: Option<Status> := None,
    createdAt: Option<nat> := None,
    completedAt: Option<nat> := None,
    currentQuestionIndex: Option<nat> := None,
    answers: Option<seq<Answer>> := None,
    chatHistory: Option<seq<ChatMessage>> := None,
    hasSeenWelcome: Option<bool> := None,
    hasBeenPromptedToStart: Option<bool> := None)

  datatype TimerState = TimerState(
    isRunning: bool,
    startTime: Option<int>,
    pausedAt: Option<int>,
    totalDuration: int,
    remaining: int,
    lastUpdated: Option<int>)

  datatype InterviewState = InterviewState(
    currentCandidate: Option<Candidate>,
    candidates: seq<Candidate>,
    isInterviewActive: bool,
    currentQuestion: Option<Question>,
    timeRemaining: int,
    showWelcomeBack: bool,
    activeTab: Tab,
    timer: TimerState)

  /** JavaScript truthiness of an optional flag: `undefined` and `false` are both falsy. */
  predicate Flag(b: Option<bool>) {
    b == Some(true)
  }

  /** JavaScript truthiness of a nullable number: `null` and `0` are both falsy. */
  predicate Truthy(n: Option<int>) {
    n.Some? && n.value != 0
  }
}
