/** The countdown timer: a number of seconds left, whether the once-per-second
    interval is active, and the text of the timer element. */
module Timer {
  import opened Text

  /** Seconds on the clock when the page loads and after a reset. */
  const InitialTime: int := 90

  /** The text shown once the countdown reaches zero. */
  const TimesUp: string := "Time's up!"

  /** Reads a `minutes:ss` text back into seconds; None for any text that
      is not a run of digits, a colon and two digits below 60. */
  function ParseClock(s: string): (r: Option<nat>)
  {
    if |s| < 4 || s[|s| - 3] != ':' then None
    else
      var minutes := ParseNat(s[..|s| - 3]);
      var seconds := ParseNat(s[|s| - 2..]);
      if minutes.Some? && seconds.Some? && seconds.value < 60
      then Some(60 * minutes.value + seconds.value)
      else None
  }

  /** The two-digit seconds field reads back as the seconds. */
  lemma SecondsRoundTrip(sec: nat)
    requires sec < 60
    ensures |PadStart(NatToString(sec), 2, '0')| == 2
    ensures ParseNat(PadStart(NatToString(sec), 2, '0')) == Some(sec)
  {
    var d := NatToString(sec);
    var p := PadStart(d, 2, '0');
    NatToStringRoundTrip(sec);
    if sec < 10 {
      assert p == ['0'] + d;
      assert p[..1] == "0";
    }
  }

  /** A minutes field, a colon and a two-digit seconds field below 60 read
      back as the seconds they stand for. */
  lemma ParseClockJoin(m: string, p: string, minutes: nat, seconds: nat, total: nat)
    requires ParseNat(m) == Some(minutes) && |m| >= 1
    requires ParseNat(p) == Some(seconds) && |p| == 2 && seconds < 60
    requires total == 60 * minutes + seconds
    ensures ParseClock(m + ":" + p) == Some(total)
  {
    var s := m + ":" + p;
    assert s[..|s| - 3] == m;
    assert s[|s| - 2..] == p;
  }

  /** `minutes:ss`: whole minutes in decimal, a colon, then the remaining
      seconds padded to two digits with a leading zero. The text reads back
      as t, so neither minutes nor seconds are lost, and the minutes carry
      no leading zero. */
  function Clock(t: nat): (r: string)
    ensures ParseClock(r) == Some(t)
    ensures 4 <= |r| && (r[0] == '0' ==> r[1] == ':')
  {
    var minutes, seconds := t / 60, t % 60;
    var m := NatToString(minutes);
    var p := PadStart(NatToString(seconds), 2, '0');
    NatToStringRoundTrip(minutes);
    SecondsRoundTrip(seconds);
    ParseClockJoin(m, p, minutes, seconds, t);
    m + ":" + p
  }

  /** The clock text of 90 seconds. */
  lemma ClockOfInitialTime()
    ensures Clock(InitialTime) == "1:30"
  {
    assert InitialTime / 60 == 1 && InitialTime % 60 == 30;
    assert NatToString(1) == "1";
    assert NatToString(3) == "3";
    assert NatToString(30) == "30";
    assert PadStart("30", 2, '0') == "30";
  }

  /** What the timer shows for the full initial time. */
  lemma TimerTextOfInitialTime()
    ensures TimerText(InitialTime) == "1:30"
  {
    ClockOfInitialTime();
  }

  /** What the timer shows with one second left. */
  lemma TimerTextOfLastSecond()
    ensures TimerText(1) == "0:01"
  {
    assert 1 / 60 == 0 && 1 % 60 == 1;
    assert NatToString(0) == "0";
    assert NatToString(1) == "1";
    assert PadStart("1", 2, '0') == "01";
  }

  /** What `updateTimer` leaves in the timer element for a given timeLeft:
      the clock while seconds remain, "Time's up!" from zero down. */
  function TimerText(t: int): (r: string)
    ensures r == TimesUp <==> t <= 0
    ensures t > 0 ==> ParseClock(r) == Some(t)
    ensures t > 0 ==> 4 <= |r| && (r[0] == '0' ==> r[1] == ':')
  {
    if t > 0 then
      assert Clock(t)[0] != TimesUp[0];
      Clock(t)
    else TimesUp
  }

  class Countdown {
    /** Seconds left; the expiring update takes it below zero. */
    var timeLeft: int
    /** Whether the repeating one-second interval is active. */
    var running: bool
    /** The text of the timer element. */
    var display: string

    /** The timer as the page loads: full time, no interval, and the
        element still showing the page's own text. */
    constructor (pageText: string)
      ensures timeLeft == InitialTime && !running && display == pageText
    {
      timeLeft := InitialTime;
      running := false;
      display := pageText;
    }

    /** `updateTimer`: show the clock or, from zero down, "Time's up!" and
        stop the interval; in every case count one second down. */
    method UpdateTimer()
      modifies this
      ensures display == TimerText(old(timeLeft))
      ensures running == (old(running) && old(timeLeft) > 0)
      ensures timeLeft == old(timeLeft) - 1
    {
      if timeLeft > 0 {
        display := Clock(timeLeft);
      } else {
        // the clock text written first is replaced before the page repaints
        running := false;
        display := TimesUp;
      }
      timeLeft := timeLeft - 1;
    }

    /** The start handler: one immediate update, then the interval is
        (re)started, even when that update found the time already up. */
    method Start()
      modifies this
      ensures display == TimerText(old(timeLeft))
      ensures timeLeft == old(timeLeft) - 1
      ensures running
    {
      UpdateTimer();
      running := true;
    }

    /** The pause handler: stop the interval, keep the time left. */
    method Pause()
      modifies this
      ensures !running
      ensures timeLeft == old(timeLeft) && display == old(display)
    {
      running := false;
    }

    /** The reset handler: stop the interval, restore the initial time and
        update once, which shows 1:30 and leaves one second less. */
    method Reset()
      modifies this
      ensures !running
      ensures display == TimerText(InitialTime)
      ensures timeLeft == InitialTime - 1
    {
      running := false;
      timeLeft := InitialTime;
      UpdateTimer();
    }
  }
}
