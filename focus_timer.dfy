/**
 * The focus timer (components/FocusTimer.tsx): a 25-minute focus session
 * and a 5-minute break that count down one second per tick, switch into
 * each other at zero, and the "MM:SS" rendering of the time left.
 */
module FocusTimer {
  import opened Types

  const FocusMinutes: nat := 25
  const FocusSeconds: nat := FocusMinutes * 60
  const BreakSeconds: nat := 5 * 60

  datatype SessionType = Focus | Break

  datatype TimerState = TimerState(timeLeft: int, isActive: bool, session: SessionType)

  /** How long a session of each kind lasts, in seconds. */
  function Duration(s: SessionType): nat
  {
    match s
    case Focus => FocusSeconds
    case Break => BreakSeconds
  }

  function Other(s: SessionType): SessionType
  {
    match s
    case Focus => Break
    case Break => Focus
  }

  function InitialTimer(): TimerState
  {
    TimerState(FocusSeconds, false, Focus)
  }

  /** The time left lies between zero and the session's length. */
  ghost predicate TimerValid(t: TimerState)
  {
    0 <= t.timeLeft <= Duration(t.session)
  }

  /**
   * One step of the timer effect: a running timer with time left loses one
   * second; at zero the timer stops and the other session begins, full.
   * A paused timer with time left does not move.
   */
  function Tick(t: TimerState): (r: TimerState)
    ensures TimerValid(t) ==> TimerValid(r)
    ensures r.session != t.session <==> t.timeLeft == 0
    ensures t.timeLeft == 0 ==> !r.isActive && r.timeLeft == Duration(r.session)
    ensures t.timeLeft != 0 ==> r.isActive == t.isActive && t.timeLeft - 1 <= r.timeLeft <= t.timeLeft
    ensures t.timeLeft > 0 ==> (r.timeLeft < t.timeLeft <==> t.isActive)
  {
    if t.isActive && t.timeLeft > 0 then
      t.(timeLeft := t.timeLeft - 1)
    else if t.timeLeft == 0 then
      TimerState(Duration(Other(t.session)), false, Other(t.session))
    else
      t
  }

  /** The play/pause button flips only whether the timer runs. */
  function ToggleTimer(t: TimerState): (r: TimerState)
    ensures r.isActive != t.isActive
    ensures r.timeLeft == t.timeLeft && r.session == t.session
  {
    t.(isActive := !t.isActive)
  }

  /** `n` steps of the timer effect. */
  function Run(t: TimerState, n: nat): TimerState
  {
    if n == 0 then t else Tick(Run(t, n - 1))
  }

  /** A running session with `n` seconds left is at `n - k` after `k` ticks. */
  lemma {:induction false} CountsDown(t: TimerState, k: nat)
    requires t.isActive && k <= t.timeLeft
    ensures Run(t, k) == t.(timeLeft := t.timeLeft - k)
  {
    if k > 0 {
      CountsDown(t, k - 1);
    }
  }

  /**
   * A running session ends after its time left plus one step: the timer
   * is then paused at the start of the other session.
   */
  lemma SessionEndsAfterItsLength(t: TimerState)
    requires TimerValid(t) && t.isActive
    ensures Run(t, t.timeLeft as nat + 1) ==
              TimerState(Duration(Other(t.session)), false, Other(t.session))
  {
    CountsDown(t, t.timeLeft as nat);
  }

  /** Starting the initial timer gives a 5-minute break after 1501 steps. */
  lemma FocusSessionLeadsToBreak()
    ensures Run(ToggleTimer(InitialTimer()), FocusSeconds + 1) == TimerState(BreakSeconds, false, Break)
  {
    SessionEndsAfterItsLength(ToggleTimer(InitialTimer()));
  }

  /** The timer as component state. */
  class Timer {
    var timeLeft: int
    var isActive: bool
    var session: SessionType

    function State(): TimerState
      reads this
    {
      TimerState(timeLeft, isActive, session)
    }

    ghost predicate Valid()
      reads this
    {
      TimerValid(State())
    }

    constructor ()
      ensures Valid() && State() == InitialTimer()
    {
      timeLeft := FocusSeconds;
      isActive := false;
      session := Focus;
    }

    method Step()
      requires Valid()
      modifies this
      ensures Valid() && State() == Tick(old(State()))
    {
      if isActive && timeLeft > 0 {
        timeLeft := timeLeft - 1;
      } else if timeLeft == 0 {
        isActive := false;
        if session == Focus {
          session := Break;
          timeLeft := BreakSeconds;
        } else {
          session := Focus;
          timeLeft := FocusSeconds;
        }
      }
    }

    method Toggle()
      requires Valid()
      modifies this`isActive
      ensures Valid() && State() == ToggleTimer(old(State()))
    {
      isActive := !isActive;
    }

    /** Back to a paused, full focus session from any state. */
    method Reset()
      modifies this
      ensures Valid() && State() == InitialTimer()
    {
      isActive := false;
      session := Focus;
      timeLeft := FocusSeconds;
    }
  }

  // ---- formatTime ----

  predicate IsDigit(c: char)
  {
    '0' <= c <= '9'
  }

  predicate AllDigits(s: string)
  {
    forall i :: 0 <= i < |s| ==> IsDigit(s[i])
  }

  function DigitChar(d: nat): (c: char)
    requires d < 10
    ensures IsDigit(c)
  {
    (d + '0' as int) as char
  }

  function DigitValue(c: char): (d: nat)
    requires IsDigit(c)
    ensures d < 10
  {
    c as int - '0' as int
  }

  /** Number.prototype.toString() on a non-negative integer. */
  function NatToString(n: nat): (s: string)
    ensures |s| >= 1 && AllDigits(s)
    ensures |s| == 1 <==> n < 10
    ensures |s| == 2 <==> 10 <= n < 100
    ensures s[0] == '0' <==> n == 0
  {
    if n < 10 then [DigitChar(n)] else NatToString(n / 10) + [DigitChar(n % 10)]
  }

  /** The value of a decimal digit string; the partner of NatToString. */
  function DecimalValue(s: string): nat
    requires AllDigits(s)
  {
    if s == [] then 0 else DecimalValue(s[..|s| - 1]) * 10 + DigitValue(s[|s| - 1])
  }

  lemma {:induction false} DecimalValueOfNatToString(n: nat)
    ensures DecimalValue(NatToString(n)) == n
  {
    if n >= 10 {
      var s := NatToString(n);
      assert s[..|s| - 1] == NatToString(n / 10);
      DecimalValueOfNatToString(n / 10);
    }
  }

  /** A leading zero does not change a decimal value. */
  lemma {:induction false} LeadingZeroKeepsValue(s: string)
    requires AllDigits(s)
    ensures AllDigits(['0'] + s) && DecimalValue(['0'] + s) == DecimalValue(s)
    decreases |s|
  {
    if s != [] {
      var z := ['0'] + s;
      assert z[..|z| - 1] == ['0'] + s[..|s| - 1];
      LeadingZeroKeepsValue(s[..|s| - 1]);
    }
  }

  /** padStart(2, '0'): zeros in front up to two characters. */
  function PadStart2(s: string): (r: string)
    ensures |r| == if |s| < 2 then 2 else |s|
    ensures r[|r| - |s|..] == s
  {
    if |s| >= 2 then s else seq(2 - |s|, _ => '0') + s
  }

  /** Padding a digit string keeps it a digit string of the same value. */
  lemma PadStart2KeepsValue(s: string)
    requires AllDigits(s)
    ensures AllDigits(PadStart2(s)) && DecimalValue(PadStart2(s)) == DecimalValue(s)
  {
    if |s| == 1 {
      assert PadStart2(s) == ['0'] + s;
      LeadingZeroKeepsValue(s);
    } else if |s| == 0 {
      assert PadStart2(s) == ['0'] + ['0'];
      LeadingZeroKeepsValue(['0']);
    }
  }

  /** formatTime: minutes and seconds, each at least two digits, around a colon. */
  function FormatTime(seconds: nat): (t: string)
    ensures ClockShaped(t)
  {
    ClockShape(seconds / 60, seconds % 60);
    Clock(seconds / 60, seconds % 60)
  }

  /** At least two digits, a colon, and exactly two digits. */
  predicate ClockShaped(t: string)
  {
    |t| >= 5 && t[|t| - 3] == ':' && AllDigits(t[..|t| - 3]) && AllDigits(t[|t| - 2..])
  }

  /** Minutes and seconds, each padded to two digits, around a colon. */
  function Clock(mins: nat, secs: nat): string
  {
    PadStart2(NatToString(mins)) + ":" + PadStart2(NatToString(secs))
  }

  lemma ClockShape(mins: nat, secs: nat)
    requires secs < 60
    ensures ClockShaped(Clock(mins, secs))
  {
    var a, b := PadStart2(NatToString(mins)), PadStart2(NatToString(secs));
    PaddedNumber(mins);
    PaddedNumber(secs);
    JoinedShape(a, b);
  }

  lemma JoinedShape(a: string, b: string)
    requires AllDigits(a) && |a| >= 2 && AllDigits(b) && |b| == 2
    ensures ClockShaped(a + ":" + b)
  {
    var t := a + ":" + b;
    assert t[..|t| - 3] == a && t[|t| - 2..] == b;
  }

  /**
   * Reads "M...M:SS" back into seconds: digits, a colon, two digits of
   * seconds below 60.
   */
  function ParseTime(t: string): Option<nat>
  {
    if |t| >= 4 && t[|t| - 3] == ':' && AllDigits(t[..|t| - 3]) && AllDigits(t[|t| - 2..])
       && DecimalValue(t[|t| - 2..]) < 60
    then Some(DecimalValue(t[..|t| - 3]) * 60 + DecimalValue(t[|t| - 2..]))
    else None
  }

  /** A digit string, a colon and two digits of seconds read back as their value. */
  lemma ParseJoined(mins: string, secs: string, m: nat, r: nat)
    requires AllDigits(mins) && |mins| >= 1 && DecimalValue(mins) == m
    requires AllDigits(secs) && |secs| == 2 && DecimalValue(secs) == r && r < 60
    ensures ParseTime(mins + ":" + secs) == Some(m * 60 + r)
  {
    var t := mins + ":" + secs;
    assert t[..|t| - 3] == mins;
    assert t[|t| - 2..] == secs;
  }

  /** The padded decimal form of a number: its value, and two characters below 100. */
  lemma PaddedNumber(n: nat)
    ensures AllDigits(PadStart2(NatToString(n)))
    ensures DecimalValue(PadStart2(NatToString(n))) == n
    ensures |PadStart2(NatToString(n))| == 2 <==> n < 100
  {
    DecimalValueOfNatToString(n);
    PadStart2KeepsValue(NatToString(n));
  }

  /** The display of m minutes and r seconds reads back as m * 60 + r. */
  lemma ClockRoundTrip(m: nat, r: nat)
    requires r < 60
    ensures ParseTime(Clock(m, r)) == Some(m * 60 + r)
    ensures |Clock(m, r)| == 5 <==> m < 100
  {
    var a, b := PadStart2(NatToString(m)), PadStart2(NatToString(r));
    PaddedNumber(m);
    PaddedNumber(r);
    ParseJoined(a, b, m, r);
  }

  /**
   * Every displayed time reads back as the seconds it shows, and it is the
   * five characters "MM:SS" exactly when it is under 100 minutes.
   */
  lemma FormatTimeRoundTrip(seconds: nat)
    ensures ParseTime(FormatTime(seconds)) == Some(seconds)
    ensures |FormatTime(seconds)| == 5 <==> seconds < 6000
  {
    var m, r := seconds / 60, seconds % 60;
    MinutesAndSeconds(seconds, m, r);
    assert FormatTime(seconds) == Clock(m, r);
    ClockRoundTrip(m, r);
  }

  /** Splitting seconds into minutes and seconds, and when the minutes fit two digits. */
  lemma MinutesAndSeconds(seconds: nat, m: nat, r: nat)
    requires m == seconds / 60 && r == seconds % 60
    ensures r < 60 && m * 60 + r == seconds
    ensures m < 100 <==> seconds < 6000
  {
  }

  /** Below 100, the padded form is the tens digit and the units digit. */
  lemma TwoDigitForm(n: nat)
    requires n < 100
    ensures PadStart2(NatToString(n)) == [DigitChar(n / 10), DigitChar(n % 10)]
  {
    if n < 10 {
      assert n / 10 == 0 && n % 10 == n;
      assert NatToString(n) == [DigitChar(n)];
      assert PadStart2([DigitChar(n)]) == ['0', DigitChar(n)];
    } else {
      var tens, units := n / 10, n % 10;
      assert tens < 10 && units < 10;
      assert NatToString(tens) == [DigitChar(tens)];
      assert NatToString(n) == [DigitChar(tens)] + [DigitChar(units)];
    }
  }

  /** A full focus session shows as "25:00". */
  lemma FocusSessionDisplay()
    ensures FormatTime(FocusSeconds) == "25:00"
  {
    assert FocusSeconds / 60 == 25 && FocusSeconds % 60 == 0;
    TwoDigitForm(25);
    TwoDigitForm(0);
  }

  /** A full break shows as "05:00". */
  lemma BreakDisplay()
    ensures FormatTime(BreakSeconds) == "05:00"
  {
    assert BreakSeconds / 60 == 5 && BreakSeconds % 60 == 0;
    TwoDigitForm(5);
    TwoDigitForm(0);
  }
}
