/**
 * The deterministic part of the AI service: question selection and time limits, the grading
 * of an answer, and the final summary. The remote model is not modelled: each call's outcome
 * is a parameter, `Some(text)` for the raw text it returned and `None` when it failed, in
 * which case the service falls back to its local rules.
 */
module AiService {
  import opened Wrappers
  import opened Text
  import opened Types

  // ---------------------------------------------------------------------------------------
  // Questions

  /** The time limit in seconds, the same on the remote and the fallback path. */
  function MaxTime(d: Difficulty): (t: nat)
    ensures t in {20, 60, 120}
    ensures d == Easy <==> t == 20
    ensures d == Hard <==> t == 120
  {
    match d
    case Easy => 20
    case Medium => 60
    case Hard => 120
  }

  function Rank(d: Difficulty): nat {
    match d
    case Easy => 0
    case Medium => 1
    case Hard => 2
  }

  /** Harder questions get strictly more time. */
  lemma MaxTimeIncreasing(d1: Difficulty, d2: Difficulty)
    requires Rank(d1) < Rank(d2)
    ensures MaxTime(d1) < MaxTime(d2)
  {
  }

  /** The difficulty as it is written in ids: "easy", "medium", "hard". */
  function Label(d: Difficulty): string {
    match d
    case Easy => "easy"
    case Medium => "medium"
    case Hard => "hard"
  }

  /** The label with its first letter upper-cased, as used in the category. */
  function CapitalLabel(d: Difficulty): string {
    match d
    case Easy => "Easy"
    case Medium => "Medium"
    case Hard => "Hard"
  }

  function Category(d: Difficulty): string {
    "Full Stack Development - " + CapitalLabel(d)
  }

  /** The six built-in questions of each difficulty, used when the remote call fails. */
  function Pool(d: Difficulty): (qs: seq<string>)
    ensures |qs| == 6
  {
    match d
    case Easy => EasyPool
    case Medium => MediumPool
    case Hard => HardPool
  }

  const EasyPool: seq<string> := [
    "What is the difference between let, const, and var in JavaScript?",
    "How do you create a functional component in React?",
    "What is the purpose of the useState hook?",
    "How do you handle click events in React?",
    "What is the difference between == and === in JavaScript?",
    "How do you import and export modules in JavaScript?"]

  const MediumPool: seq<string> := [
    "How do you fetch data from an API in React?",
    "Explain how useEffect works in React with an example.",
    "How do you handle form validation in a React application?",
    "What is the difference between props and state in React?",
    "How do you create a REST API endpoint in Node.js?",
    "How do you connect a React app to a database?"]

  const HardPool: seq<string> := [
    "How do you implement user authentication in a full-stack application?",
    "Explain how you would optimize a slow React application.",
    "How do you handle error boundaries in React?",
    "How do you implement real-time features using WebSockets?",
    "How do you secure API endpoints in Node.js?",
    "How do you implement pagination in a React application?"]

  function FallbackId(d: Difficulty, index: nat): string {
    "fallback-" + Label(d) + "-" + NatToString(index)
  }

  /**
   * `generateQuestion(d, index)`. With a reply, the question is the trimmed reply and its id
   * carries the clock; without one, it is the pool entry `index mod 6`.
   */
  function GenerateQuestion(d: Difficulty, index: nat, reply: Option<string>, now: nat): (q: Question)
    ensures q.difficulty == d && q.maxTime == MaxTime(d) && q.category == Category(d)
    ensures reply.Some? ==> q.question == Trim(reply.value)
    ensures reply.Some? ==> q.id == Label(d) + "-" + NatToString(index) + "-" + NatToString(now)
    ensures reply.None? ==> q.question == Pool(d)[index % 6] && q.question in Pool(d)
    ensures reply.None? ==> q.id == FallbackId(d, index)
  {
    match reply
    case Some(raw) =>
      Question(Label(d) + "-" + NatToString(index) + "-" + NatToString(now), Trim(raw), d, MaxTime(d), Category(d))
    case None =>
      Question(FallbackId(d, index), Pool(d)[index % 6], d, MaxTime(d), Category(d))
  }

  /** Fallback questions repeat with period six. */
  lemma FallbackCycles(d: Difficulty, index: nat)
    ensures GenerateQuestion(d, index + 6, None, 0).question == GenerateQuestion(d, index, None, 0).question
  {
    assert (index + 6) % 6 == index % 6;
  }

  /** Distinct indices of one difficulty get distinct fallback ids. */
  lemma FallbackIdsDistinct(d: Difficulty, i: nat, j: nat)
    requires i != j
    ensures FallbackId(d, i) != FallbackId(d, j)
  {
    var prefix := "fallback-" + Label(d) + "-";
    if FallbackId(d, i) == FallbackId(d, j) {
      assert NatToString(i) == FallbackId(d, i)[|prefix|..];
      assert NatToString(j) == FallbackId(d, j)[|prefix|..];
      NatToStringInjective(i, j);
      assert false;
    }
  }

  // ---------------------------------------------------------------------------------------
  // Fallback grading

  /** The length-based score: `min(10, floor(length / divisor) + base)`. */
  function ScoreForLength(n: nat, d: Difficulty): (score: int)
    ensures 1 <= score <= 10
  {
    match d
    case Easy => Min(10, n / 20 + 3)
    case Medium => Min(10, n / 30 + 2)
    case Hard => Min(10, n / 50 + 1)
  }

  function Min(a: int, b: int): int {
    if a <= b then a else b
  }

  /** `getFallbackScore`: the length-based score of the trimmed answer, in UTF-16 code units. */
  function FallbackScore(answer: string, d: Difficulty): int {
    ScoreForLength(JsLength(Trim(answer)), d)
  }

  /** The trimmed length at which each difficulty's fallback score reaches its cap of 10. */
  function FullMarksLength(d: Difficulty): nat {
    match d
    case Easy => 140
    case Medium => 240
    case Hard => 450
  }

  /** A longer answer never scores less, and the score is full exactly from the cap length on. */
  lemma ScoreForLengthShape(m: nat, n: nat, d: Difficulty)
    ensures m <= n ==> ScoreForLength(m, d) <= ScoreForLength(n, d)
    ensures ScoreForLength(n, d) == 10 <==> n >= FullMarksLength(d)
    ensures ScoreForLength(0, d) == 3 - Rank(d)
  {
  }

  const GoodFeedback := "Good understanding demonstrated. Your answer shows solid technical knowledge."
  const DecentFeedback := "Decent attempt but could benefit from more detail and specific examples."
  const WeakFeedback := "Answer needs more depth and technical accuracy. Consider reviewing the fundamentals."

  /** The feedback tier of a score: at least 7, at least 4, or below. */
  function FeedbackForScore(score: int): string {
    if score >= 7 then GoodFeedback else if score >= 4 then DecentFeedback else WeakFeedback
  }

  /** `getFallbackFeedback`: the tier of the same fallback score. */
  function FallbackFeedback(answer: string, d: Difficulty): string {
    FeedbackForScore(FallbackScore(answer, d))
  }

  /** The trimmed lengths at which the fallback feedback reaches the upper two tiers. */
  function GoodLength(d: Difficulty): nat {
    match d
    case Easy => 80
    case Medium => 150
    case Hard => 300
  }

  function DecentLength(d: Difficulty): nat {
    match d
    case Easy => 20
    case Medium => 60
    case Hard => 150
  }

  /** The fallback feedback as a function of the trimmed answer length alone. */
  lemma FallbackFeedbackByLength(answer: string, d: Difficulty)
    ensures var n := JsLength(Trim(answer));
      FallbackFeedback(answer, d) ==
        if n >= GoodLength(d) then GoodFeedback
        else if n >= DecentLength(d) then DecentFeedback
        else WeakFeedback
  {
    FeedbackTiers(JsLength(Trim(answer)), d);
  }

  /** The fallback score reaches the upper two feedback tiers exactly at the tier lengths. */
  lemma FeedbackTiers(n: nat, d: Difficulty)
    ensures ScoreForLength(n, d) >= 7 <==> n >= GoodLength(d)
    ensures ScoreForLength(n, d) >= 4 <==> n >= DecentLength(d)
  {
  }

  datatype Evaluation = Evaluation(score: int, feedback: string)

  /** `getFallbackEvaluation`: the length-based score and the feedback tier of that score. */
  function FallbackEvaluation(answer: string, d: Difficulty): (e: Evaluation)
    ensures 1 <= e.score <= 10
    ensures e.feedback == FeedbackForScore(e.score)
  {
    Evaluation(FallbackScore(answer, d), FallbackFeedback(answer, d))
  }

  /**
   * The fallback evaluation in terms of the trimmed answer's length in UTF-16 code units:
   * a longer answer never scores less, full marks come exactly from the cap length on, and
   * the feedback tiers start exactly at the tier lengths.
   */
  lemma FallbackByLength(answer: string, longer: string, d: Difficulty)
    requires JsLength(Trim(answer)) <= JsLength(Trim(longer))
    ensures var n := JsLength(Trim(answer)); var e := FallbackEvaluation(answer, d);
      && e.score <= FallbackEvaluation(longer, d).score
      && (e.score == 10 <==> n >= FullMarksLength(d))
      && (e.feedback == GoodFeedback <==> n >= GoodLength(d))
      && (e.feedback == WeakFeedback <==> n < DecentLength(d))
  {
    var n := JsLength(Trim(answer));
    ScoreForLengthShape(n, JsLength(Trim(longer)), d);
    FeedbackTiers(n, d);
  }

  /**
   * Characters beyond U+FFFF count twice: forty emoji make an easy answer of eighty code
   * units, which scores 7 and gets the top feedback tier.
   */
  lemma FallbackCountsCodeUnits(answer: string)
    requires |answer| == 40 && forall i :: 0 <= i < 40 ==> answer[i] == '\U{1F600}'
    ensures FallbackEvaluation(answer, Easy) == Evaluation(7, GoodFeedback)
  {
    assert !IsSpace(answer[0]) && !IsSpace(answer[39]);
    assert TrimStart(answer) == answer;
    assert Trim(answer) == answer;
    JsLengthPlanes(answer);
  }

  // ---------------------------------------------------------------------------------------
  // Parsing the model's reply

  /** The first position at or after `i` that is not white space. */
  function SkipSpace(t: string, i: nat): (j: nat)
    requires i <= |t|
    ensures i <= j <= |t|
    ensures forall k :: i <= k < j ==> IsSpace(t[k])
    ensures j == |t| || !IsSpace(t[j])
    decreases |t| - i
  {
    if i < |t| && IsSpace(t[i]) then SkipSpace(t, i + 1) else i
  }

  /** The end of the run of digits that starts at `i`. */
  function DigitRun(t: string, i: nat): (j: nat)
    requires i <= |t|
    ensures i <= j <= |t|
    ensures AllDigits(t[i..j])
    ensures j == |t| || !IsDigit(t[j])
    decreases |t| - i
  {
    if i < |t| && IsDigit(t[i]) then
      var j := DigitRun(t, i + 1);
      assert t[i..j] == [t[i]] + t[i + 1..j];
      j
    else i
  }

  /** `/SCORE:\s*(\d+)/` matches at `p`: the marker, optional white space, then a digit. */
  predicate ScoreAt(t: string, p: int) {
    SliceAt(t, "SCORE:", p) && var q := SkipSpace(t, p + 6); q < |t| && IsDigit(t[q])
  }

  /** The number captured by a score match at `p` (`parseInt` of the digit run). */
  function ScoreValueAt(t: string, p: nat): nat
    requires ScoreAt(t, p)
  {
    var q := SkipSpace(t, p + 6);
    DigitsValue(t[q..DigitRun(t, q)])
  }

  /** `/FEEDBACK:\s*([\s\S]+)/` matches at `p`: the marker with at least one character after it. */
  predicate FeedbackAt(t: string, p: int) {
    SliceAt(t, "FEEDBACK:", p) && p + 9 < |t|
  }

  /**
   * The leftmost position at or after `i` satisfying the match predicate of `score` (`true`)
   * or of feedback (`false`); regular expressions without the `g` flag report this match.
   */
  function FirstMatch(t: string, score: bool, i: nat): (p: Option<nat>)
    ensures p.Some? ==> i <= p.value && (if score then ScoreAt(t, p.value) else FeedbackAt(t, p.value))
    ensures p.Some? ==> forall k :: i <= k < p.value ==>
      !(if score then ScoreAt(t, k) else FeedbackAt(t, k))
    ensures p.None? ==> forall k :: i <= k ==> !(if score then ScoreAt(t, k) else FeedbackAt(t, k))
    decreases |t| - i
  {
    if i > |t| then None
    else if (if score then ScoreAt(t, i) else FeedbackAt(t, i)) then Some(i)
    else FirstMatch(t, score, i + 1)
  }

  /** The scan stops at the first match: a match at `p` with none before it is what it finds. */
  lemma {:induction false} FirstMatchFinds(t: string, score: bool, i: nat, p: nat)
    requires i <= p && (if score then ScoreAt(t, p) else FeedbackAt(t, p))
    requires forall k :: i <= k < p ==> !(if score then ScoreAt(t, k) else FeedbackAt(t, k))
    ensures FirstMatch(t, score, i) == Some(p)
    decreases p - i
  {
    if i < p {
      FirstMatchFinds(t, score, i + 1, p);
    }
  }

  /** The captured score, if the reply contains one. */
  function ParseScore(t: string): (r: Option<nat>)
    ensures r.None? <==> forall k :: 0 <= k ==> !ScoreAt(t, k)
    ensures r.Some? ==> exists p: nat ::
      (ScoreAt(t, p) && r.value == ScoreValueAt(t, p) && forall k :: 0 <= k < p ==> !ScoreAt(t, k))
  {
    match FirstMatch(t, true, 0)
    case Some(p) => Some(ScoreValueAt(t, p))
    case None => None
  }

  /**
   * The captured feedback, trimmed, if the reply contains one. The white space `\s*` skips is
   * removed by the trim in any case, so the result is the trimmed rest after the marker.
   */
  function ParseFeedback(t: string): (r: Option<string>)
    ensures r.None? <==> forall k :: 0 <= k ==> !FeedbackAt(t, k)
    ensures r.Some? ==> exists p: nat ::
      (FeedbackAt(t, p) && r.value == Trim(t[p + 9..]) && forall k :: 0 <= k < p ==> !FeedbackAt(t, k))
  {
    match FirstMatch(t, false, 0)
    case Some(p) => Some(Trim(t[p + 9..]))
    case None => None
  }

  function Clamp(score: int): (c: int)
    ensures 0 <= c <= 10
    ensures 0 <= score <= 10 ==> c == score
  {
    Min(10, if score >= 0 then score else 0)
  }

  /**
   * `evaluateAnswer`. A blank answer is not sent anywhere. A reply supplies the score and the
   * feedback it contains, each falling back to the local rule when missing; without a reply
   * the local rules decide both.
   */
  function EvaluateAnswer(answer: string, d: Difficulty, reply: Option<string>): (e: Evaluation)
    ensures 0 <= e.score <= 10
    ensures IsBlank(answer) ==> e == Evaluation(0, "No answer provided.")
    ensures !IsBlank(answer) && reply.None? ==> e == FallbackEvaluation(answer, d)
    ensures !IsBlank(answer) && reply.Some? ==>
      var t := Trim(reply.value);
      && e.score == (match ParseScore(t) case Some(v) => Min(10, v) case None => FallbackScore(answer, d))
      && e.feedback == ParseFeedback(t).GetOr(FallbackFeedback(answer, d))
  {
    if IsBlank(answer) then Evaluation(0, "No answer provided.")
    else match reply
      case None => FallbackEvaluation(answer, d)
      case Some(raw) =>
        var t := Trim(raw);
        var score := match ParseScore(t) case Some(v) => v case None => FallbackScore(answer, d);
        var feedback := match ParseFeedback(t) case Some(f) => f case None => FallbackFeedback(answer, d);
        Evaluation(Clamp(score), feedback)
  }

  /** The reply format the prompt asks for: "SCORE: <n>", a line break, "FEEDBACK: <text>". */
  function Reply(v: nat, feedback: string): string {
    "SCORE: " + NatToString(v) + "\nFEEDBACK: " + feedback
  }

  lemma {:induction false} DigitRunOf(t: string, i: nat, digits: string)
    requires i + |digits| <= |t| && t[i..i + |digits|] == digits && AllDigits(digits)
    requires i + |digits| == |t| || !IsDigit(t[i + |digits|])
    ensures DigitRun(t, i) == i + |digits|
    decreases |digits|
  {
    if |digits| > 0 {
      assert t[i] == digits[0];
      assert t[i + 1..i + 1 + |digits[1..]|] == digits[1..];
      DigitRunOf(t, i + 1, digits[1..]);
    }
  }

  lemma TrimLeadingSpace(f: string)
    ensures Trim(" " + f) == Trim(f)
  {
    assert (" " + f)[1..] == f;
  }

  /** The feedback marker cannot start at a position that does not hold an 'F'. */
  lemma NoFeedbackBefore(t: string, p: nat)
    requires p <= |t| && forall k :: 0 <= k < p ==> t[k] != 'F'
    ensures forall k :: 0 <= k < p ==> !FeedbackAt(t, k)
  {
    forall k | 0 <= k < p
      ensures !FeedbackAt(t, k)
    {
      if k + 9 <= |t| {
        assert t[k..k + 9][0] == t[k] != "FEEDBACK:"[0];
      }
    }
  }

  /** The number of a reply in the requested format is read back exactly. */
  lemma ReplyScoreRoundTrip(v: nat, feedback: string)
    ensures ParseScore(Reply(v, feedback)) == Some(v)
  {
    var digits := NatToString(v);
    var t := Reply(v, feedback);
    assert t[..6] == "SCORE:";
    assert t[6] == ' ' && t[7] == digits[0];
    assert SkipSpace(t, 7) == 7;
    assert ScoreAt(t, 0);
    assert t[7..7 + |digits|] == digits;
    assert t[7 + |digits|] == '\n';
    DigitRunOf(t, 7, digits);
    DigitsRoundTrip(v);
  }

  /** The score line of a reply holds no `F`, so the feedback marker cannot start in it. */
  lemma ScoreLineHasNoF(v: nat)
    ensures var head := "SCORE: " + NatToString(v) + "\n";
      forall k :: 0 <= k < |head| ==> head[k] != 'F'
  {
    var digits := NatToString(v);
    var head := "SCORE: " + digits + "\n";
    forall k | 0 <= k < |head|
      ensures head[k] != 'F'
    {
      if 7 <= k < 7 + |digits| {
        assert head[k] == digits[k - 7];
      }
    }
  }

  /** The text of a reply in the requested format is read back trimmed. */
  lemma ReplyFeedbackRoundTrip(v: nat, feedback: string)
    ensures ParseFeedback(Reply(v, feedback)) == Some(Trim(feedback))
  {
    var t := Reply(v, feedback);
    var p := FeedbackMarkerOfReply(v, feedback);
    FirstMatchFinds(t, false, 0, p);
    TrimLeadingSpace(feedback);
  }

  /** Where the feedback marker of a reply starts: the first match, followed by a space and the text. */
  lemma FeedbackMarkerOfReply(v: nat, feedback: string) returns (p: nat)
    ensures var t := Reply(v, feedback);
      && p + 9 <= |t| && FeedbackAt(t, p) && t[p + 9..] == " " + feedback
      && forall k :: 0 <= k < p ==> !FeedbackAt(t, k)
  {
    var head := "SCORE: " + NatToString(v) + "\n";
    var t := Reply(v, feedback);
    p := |head|;
    assert t == head + ("FEEDBACK: " + feedback);
    assert t[p..p + 9] == "FEEDBACK:";
    ScoreLineHasNoF(v);
    assert forall k :: 0 <= k < p ==> t[k] == head[k];
    NoFeedbackBefore(t, p);
    assert t[p + 9..] == " " + feedback;
  }

  /** Grading a non-blank answer from a reply in the requested format. */
  lemma EvaluateWellFormedReply(answer: string, d: Difficulty, raw: string, v: nat, feedback: string)
    requires !IsBlank(answer) && Trim(raw) == Reply(v, feedback)
    ensures EvaluateAnswer(answer, d, Some(raw)) == Evaluation(Min(10, v), Trim(feedback))
  {
    ReplyScoreRoundTrip(v, feedback);
    ReplyFeedbackRoundTrip(v, feedback);
  }

  /** A reply above the scale is capped: "SCORE: 15" counts as 10. */
  lemma ScoreCapped(answer: string, d: Difficulty, raw: string)
    requires !IsBlank(answer) && ParseScore(Trim(raw)) == Some(15)
    ensures EvaluateAnswer(answer, d, Some(raw)).score == 10
  {
  }

  // ---------------------------------------------------------------------------------------
  // Final summary

  function SumScores(answers: seq<Answer>): int
    decreases |answers|
  {
    if |answers| == 0 then 0 else SumScores(answers[..|answers| - 1]) + answers[|answers| - 1].score
  }

  /** `Math.round(total / n * 10)` in exact arithmetic: the nearest integer, halves rounded up. */
  function FinalScore(answers: seq<Answer>): (r: int)
    requires |answers| > 0
    ensures var n := |answers|; var total := SumScores(answers);
      2 * n * r - n <= 20 * total < 2 * n * r + n
  {
    var n := |answers|;
    (20 * SumScores(answers) + n) / (2 * n)
  }

  predicate ScoresInRange(answers: seq<Answer>) {
    forall i :: 0 <= i < |answers| ==> 0 <= answers[i].score <= 10
  }

  lemma {:induction false} SumScoresBounds(answers: seq<Answer>)
    requires ScoresInRange(answers)
    ensures 0 <= SumScores(answers) <= 10 * |answers|
    decreases |answers|
  {
    if |answers| > 0 {
      SumScoresBounds(answers[..|answers| - 1]);
    }
  }

  /** With every answer scored on the 0..10 scale, the final score lies in 0..100. */
  lemma FinalScoreInRange(answers: seq<Answer>)
    requires |answers| > 0 && ScoresInRange(answers)
    ensures 0 <= FinalScore(answers) <= 100
  {
    SumScoresBounds(answers);
    var n := |answers|;
    var r := FinalScore(answers);
    var total := SumScores(answers);
    if r < 0 {
      MulNonneg(-r - 1, 2 * n);
    }
    if r > 100 {
      MulNonneg(r - 101, 2 * n);
    }
  }

  lemma MulNonneg(x: int, y: int)
    requires x >= 0 && y >= 0
    ensures x * y >= 0
  {
  }

  /** The four performance bands the summary and the dashboard colours share. */
  datatype Band = Excellent | Good | Average | BelowAverage

  function BandOf(score: int): Band {
    if score >= 80 then Excellent else if score >= 60 then Good else if score >= 40 then Average else BelowAverage
  }

  function BandRank(b: Band): nat {
    match b
    case BelowAverage => 0
    case Average => 1
    case Good => 2
    case Excellent => 3
  }

  /** A higher score never falls in a lower band. */
  lemma BandMonotone(a: int, b: int)
    requires a <= b
    ensures BandRank(BandOf(a)) <= BandRank(BandOf(b))
  {
  }

  function SummaryText(b: Band): string {
    match b
    case Excellent => "Excellent candidate with strong technical skills and clear communication. Demonstrates deep understanding of full-stack concepts."
    case Good => "Good candidate with solid fundamentals and practical knowledge. Shows potential with some areas for improvement in advanced concepts."
    case Average => "Average candidate with basic understanding of core concepts. Needs improvement in technical depth and problem-solving approach."
    case BelowAverage => "Below average performance with significant gaps in technical knowledge and communication skills."
  }

  datatype Summary = Summary(score: int, summary: string)

  /** `getFallbackSummary`: the band's text, with the score passed through. */
  function FallbackSummary(finalScore: int): (s: Summary)
    ensures s.score == finalScore
    ensures s.summary == SummaryText(BandOf(finalScore))
  {
    Summary(finalScore, SummaryText(BandOf(finalScore)))
  }

  /**
   * `generateFinalSummary`: the score is computed before the remote call and is the same
   * whether or not the call succeeds; only the text depends on the reply.
   */
  function GenerateFinalSummary(answers: seq<Answer>, reply: Option<string>): (s: Summary)
    requires |answers| > 0
    ensures var n := |answers|; var total := SumScores(answers);
      2 * n * s.score - n <= 20 * total < 2 * n * s.score + n
    ensures reply.Some? ==> s.summary == Trim(reply.value)
    ensures reply.None? ==> s.summary == SummaryText(BandOf(s.score))
  {
    var score := FinalScore(answers);
    match reply
    case Some(raw) => Summary(score, Trim(raw))
    case None => FallbackSummary(score)
  }

  /** The total of a prefix one answer longer adds that answer's score. */
  lemma SumScoresNext(a: seq<Answer>, k: nat)
    requires k < |a|
    ensures SumScores(a[..k + 1]) == SumScores(a[..k]) + a[k].score
  {
    assert a[..k + 1][..k] == a[..k];
  }

  /** Scores 9, 8, 7, 6, 8, 7 total 38 over the first five answers and 45 over all six. */
  lemma SixAnswerTotals(a: seq<Answer>)
    requires |a| == 6
    requires a[0].score == 9 && a[1].score == 8 && a[2].score == 7
    requires a[3].score == 6 && a[4].score == 8 && a[5].score == 7
    ensures SumScores(a[..5]) == 38 && SumScores(a) == 45
  {
    assert a[..0] == [];
    SumScoresNext(a, 0);
    SumScoresNext(a, 1);
    SumScoresNext(a, 2);
    SumScoresNext(a, 3);
    SumScoresNext(a, 4);
    SumScoresNext(a, 5);
    assert a[..6] == a;
  }

  /** Scores 9, 8, 7, 6, 8, 7 average 7.5 and give a final score of 75. */
  lemma SixAnswerExample(a: seq<Answer>)
    requires |a| == 6
    requires a[0].score == 9 && a[1].score == 8 && a[2].score == 7
    requires a[3].score == 6 && a[4].score == 8 && a[5].score == 7
    ensures FinalScore(a) == 75
    ensures GenerateFinalSummary(a, None) == Summary(75, SummaryText(Good))
  {
    SixAnswerScore(a);
    assert BandOf(75) == Good;
  }

  lemma SixAnswerScore(a: seq<Answer>)
    requires |a| == 6
    requires a[0].score == 9 && a[1].score == 8 && a[2].score == 7
    requires a[3].score == 6 && a[4].score == 8 && a[5].score == 7
    ensures FinalScore(a) == 75
  {
    SixAnswerTotals(a);
    assert FinalScore(a) == 906 / 12;
  }
}
