/**
 * The sidebar: the `m:ss` clock, the timer's colour and pause marker, and the question
 * label of the current candidate.
 */
module Sidebar {
  import opened Wrappers
  import opened Text
  import opened Types

  // ---------------------------------------------------------------------------------------
  // The clock

  /**
   * `n % 60` as JavaScript computes it: the remainder has the sign of `n`, where Dafny's own
   * `%` never yields a negative remainder.
   */
  function JsRemainder60(n: int): (r: int)
    ensures n >= 0 ==> r == n % 60 && 0 <= r < 60
    ensures n < 0 ==> -60 < r <= 0 && r == (if n % 60 == 0 then 0 else n % 60 - 60)
  {
    if n >= 0 then n % 60 else -((-n) % 60)
  }

  /**
   * `formatTime`: `Math.floor(seconds / 60)`, a colon, and `seconds % 60` left-padded with
   * zeros to two characters. Dafny's `/` by a positive divisor rounds down, as
   * `Math.floor` of the quotient does.
   */
  function FormatTime(seconds: int): (r: string)
    ensures seconds >= 0 ==> r == NatToString(seconds / 60) + ":" + PadStart2(NatToString(seconds % 60))
  {
    IntToString(seconds / 60) + ":" + PadStart2(IntToString(JsRemainder60(seconds)))
  }

  /** Reads an `m:ss` clock back: decimal minutes, a colon, two decimal digits of seconds. */
  function ReadTime(t: string): (r: Option<nat>)
    ensures r.Some? ==> |t| >= 4 && t[|t| - 3] == ':'
  {
    if |t| >= 4 && t[|t| - 3] == ':' && AllDigits(t[..|t| - 3]) && AllDigits(t[|t| - 2..]) then
      var secs := DigitsValue(t[|t| - 2..]);
      if secs < 60 then Some(DigitsValue(t[..|t| - 3]) * 60 + secs) else None
    else None
  }

  /** Two characters of seconds, read back, give the seconds. */
  lemma SecondsRoundTrip(x: nat)
    requires x < 60
    ensures var p := PadStart2(NatToString(x)); |p| == 2 && AllDigits(p) && DigitsValue(p) == x
  {
    var s := NatToString(x);
    DigitsRoundTrip(x);
    if x < 10 {
      var p := PadStart2(s);
      assert p == "0" + s;
      assert p[..1] == "0";
      assert DigitsValue(p) == DigitsValue("0") * 10 + DigitValue(s[0]);
    }
  }

  /** A clock assembled from minutes and two digits of seconds under 60 reads back as their total. */
  lemma ReadAssembled(m: string, p: string)
    requires |m| >= 1 && AllDigits(m) && |p| == 2 && AllDigits(p) && DigitsValue(p) < 60
    ensures ReadTime(m + ":" + p) == Some(DigitsValue(m) * 60 + DigitsValue(p))
  {
    var t := m + ":" + p;
    assert t[..|t| - 3] == m;
    assert t[|t| - 2..] == p;
    assert t[|t| - 3] == ':';
  }

  /**
   * For a non-negative number of seconds the clock shows whole minutes, a colon, and the
   * remaining seconds as two digits under 60; reading it back gives the number again.
   */
  lemma {:induction false} FormatTimeRoundTrip(seconds: nat)
    ensures ReadTime(FormatTime(seconds)) == Some(seconds)
  {
    var m := NatToString(seconds / 60);
    var p := PadStart2(NatToString(seconds % 60));
    SecondsRoundTrip(seconds % 60);
    DigitsRoundTrip(seconds / 60);
    ReadAssembled(m, p);
    assert FormatTime(seconds) == m + ":" + p;
  }

  /** Distinct non-negative times show distinct clocks. */
  lemma FormatTimeInjective(a: nat, b: nat)
    requires FormatTime(a) == FormatTime(b)
    ensures a == b
  {
    FormatTimeRoundTrip(a);
    FormatTimeRoundTrip(b);
  }

  // ---------------------------------------------------------------------------------------
  // The panel

  datatype TimerColor = Red | Cyan | Yellow

  /** Red in the last ten seconds; otherwise cyan while counting and yellow while paused. */
  function ClockColor(timeRemaining: int, isTimerActive: bool): (c: TimerColor)
    ensures c == Red <==> timeRemaining <= 10
    ensures c == Cyan <==> timeRemaining > 10 && isTimerActive
    ensures c == Yellow <==> timeRemaining > 10 && !isTimerActive
  {
    if timeRemaining <= 10 then Red else if isTimerActive then Cyan else Yellow
  }

  datatype TimerBlock = TimerBlock(color: TimerColor, clock: string, paused: bool)

  /** The candidate panel: the question label, and the timer block when it is shown. */
  datatype Panel = Panel(name: string, questionLabel: string, timer: Option<TimerBlock>)

  /** "Question n/6", counting from one. */
  function QuestionLabel(index: nat): string {
    "Question " + NatToString(index + 1) + "/6"
  }

  /**
   * The candidate panel, present only with a current candidate; its timer block only on
   * the interviewee tab, marked paused exactly when the timer is not active.
   */
  function CandidatePanel(activeTab: Tab, current: Option<Candidate>, timeRemaining: int, isTimerActive: bool)
    : (r: Option<Panel>)
    ensures r.Some? <==> current.Some?
    ensures r.Some? ==> r.value.name == current.value.name
    ensures r.Some? ==> (r.value.timer.Some? <==> activeTab == Interviewee)
    ensures r.Some? && r.value.timer.Some? ==>
      var b := r.value.timer.value;
      && b.paused == !isTimerActive
      && b.clock == FormatTime(timeRemaining)
      && b.color == ClockColor(timeRemaining, isTimerActive)
  {
    match current
    case None => None
    case Some(c) =>
      var block := if activeTab == Interviewee
        then Some(TimerBlock(ClockColor(timeRemaining, isTimerActive), FormatTime(timeRemaining), !isTimerActive))
        else None;
      Some(Panel(c.name, QuestionLabel(c.currentQuestionIndex), block))
  }

  /** The label reads back the one-based question number. */
  lemma QuestionLabelNumber(index: nat)
    ensures var r := QuestionLabel(index);
      |r| >= 11 && DigitsValue(r[9..|r| - 2]) == index + 1
  {
    var r := QuestionLabel(index);
    var n := NatToString(index + 1);
    assert r[9..|r| - 2] == n;
    DigitsRoundTrip(index + 1);
  }
}
