/** The SOS-active screen: its own 150-second countdown and the `mm:ss` display. */
module SosActiveScreen {
  import opened Strings

  const InitialCountdown: int := 150

  /** The interval's updater: one second less, never below 0. */
  function CountdownTick(prev: int): int {
    if prev <= 0 then 0 else prev - 1
  }

  /** `n` ticks. */
  function AfterTicks(t: int, n: nat): int
    decreases n
  {
    if n == 0 then t else AfterTicks(CountdownTick(t), n - 1)
  }

  /** After `n` ticks from a non-negative value the countdown shows `t - n`, or 0 once it
      has run out, and stays at 0. */
  lemma {:induction false} CountdownReachesZero(t: int, n: nat)
    requires t >= 0
    ensures AfterTicks(t, n) == if n <= t then t - n else 0
    decreases n
  {
    if n > 0 {
      CountdownReachesZero(CountdownTick(t), n - 1);
    }
  }

  /** `formatTime(seconds)`: minutes and seconds, each padded to two digits, joined by ':'. */
  function FormatTime(seconds: nat): string {
    PadStart(NatToDecimal(seconds / 60), 2, '0') + ":" + PadStart(NatToDecimal(seconds % 60), 2, '0')
  }

  /** Reading a padded field back gives the number printed in it. */
  lemma PaddedRoundTrip(n: nat)
    ensures DecimalValue(PadStart(NatToDecimal(n), 2, '0')) == n
  {
    var d := NatToDecimal(n);
    var p := PadStart(d, 2, '0');
    var zeros := p[..|p| - |d|];
    assert p == zeros + d;
    LeadingZeros(zeros, d);
    DecimalRoundTrip(n);
  }

  /** The display always splits at its last ':' into a minutes field of at least two
      digits and a seconds field of exactly two; reading `MM*60 + SS` back gives the
      input, and padding never truncates the minutes. */
  lemma FormatTimeReadsBack(s: nat)
    ensures var r := FormatTime(s);
      && |r| >= 5 && r[|r| - 3] == ':'
      && r[..|r| - 3] == PadStart(NatToDecimal(s / 60), 2, '0')
      && DecimalValue(r[..|r| - 3]) * 60 + DecimalValue(r[|r| - 2..]) == s
      && (s < 6000 <==> |r| == 5)
  {
    var mm, ss := PadStart(NatToDecimal(s / 60), 2, '0'), PadStart(NatToDecimal(s % 60), 2, '0');
    FieldValues(s, mm, ss);
    SplitAtColon(FormatTime(s), mm, ss);
  }

  lemma FieldValues(s: nat, mm: string, ss: string)
    requires mm == PadStart(NatToDecimal(s / 60), 2, '0') && ss == PadStart(NatToDecimal(s % 60), 2, '0')
    ensures |ss| == 2 && |mm| >= 2 && (s < 6000 <==> |mm| == 2)
    ensures DecimalValue(mm) * 60 + DecimalValue(ss) == s
  {
    PaddedRoundTrip(s / 60);
    PaddedRoundTrip(s % 60);
  }

  lemma SplitAtColon(r: string, mm: string, ss: string)
    requires r == mm + ":" + ss && |ss| == 2
    ensures |r| == |mm| + 3 && r[|r| - 3] == ':' && r[..|r| - 3] == mm && r[|r| - 2..] == ss
  {
  }

  /** A number below 100 pads to exactly its two decimal digits. */
  lemma PaddedDigits(n: nat)
    requires n < 100
    ensures PadStart(NatToDecimal(n), 2, '0') == [DigitChar(n / 10), DigitChar(n % 10)]
  {
    if n >= 10 {
      assert NatToDecimal(n) == NatToDecimal(n / 10) + [DigitChar(n % 10)];
    }
  }

  /** Below 100 minutes the display is five characters: two minute digits, ':', and two
      second digits. */
  lemma FormatTimeDigits(s: nat)
    requires s < 6000
    ensures FormatTime(s) == [DigitChar(s / 60 / 10), DigitChar(s / 60 % 10), ':', DigitChar(s % 60 / 10), DigitChar(s % 60 % 10)]
  {
    var m, sec := s / 60, s % 60;
    assert m < 100 && sec < 60;
    PaddedDigits(m);
    PaddedDigits(sec);
    Joined(PadStart(NatToDecimal(m), 2, '0'), PadStart(NatToDecimal(sec), 2, '0'),
      DigitChar(m / 10), DigitChar(m % 10), DigitChar(sec / 10), DigitChar(sec % 10));
  }

  lemma Joined(mm: string, ss: string, m1: char, m2: char, s1: char, s2: char)
    requires mm == [m1, m2] && ss == [s1, s2]
    ensures mm + ":" + ss == [m1, m2, ':', s1, s2]
  {
  }

  /** The first value the screen shows, 150 seconds, prints as "02:30". */
  lemma FormatTimeAtStart()
    ensures FormatTime(InitialCountdown) == "02:30"
  {
    ShownAs(InitialCountdown, 0, 2, 3, 0, "02:30");
  }

  /** The value the countdown stops at, 0, prints as "00:00". */
  lemma FormatTimeAtZero()
    ensures FormatTime(0) == "00:00"
  {
    ShownAs(0, 0, 0, 0, 0, "00:00");
  }

  /** The display of `s` from its four digits. */
  lemma ShownAs(s: nat, m1: nat, m2: nat, s1: nat, s2: nat, text: string)
    requires s < 6000 && m1 == s / 60 / 10 && m2 == s / 60 % 10 && s1 == s % 60 / 10 && s2 == s % 60 % 10
    requires text == [DigitChar(m1), DigitChar(m2), ':', DigitChar(s1), DigitChar(s2)]
    ensures FormatTime(s) == text
  {
    FormatTimeDigits(s);
  }

  class Screen {
    var timeRemaining: int
    var intervalRunning: bool

    /** The mount: 2:30 on the clock and the interval started. */
    constructor ()
      ensures timeRemaining == InitialCountdown && intervalRunning
    {
      timeRemaining := InitialCountdown;
      intervalRunning := true;
    }

    /** One interval tick: the updater decrements; at 0 it clears the interval and keeps 0. */
    method Tick()
      requires intervalRunning
      modifies this
      ensures timeRemaining == CountdownTick(old(timeRemaining))
      ensures intervalRunning == (old(timeRemaining) > 0)
    {
      if timeRemaining <= 0 {
        intervalRunning := false;
        timeRemaining := 0;
      } else {
        timeRemaining := timeRemaining - 1;
      }
    }

    /** `handleStopSOS`: clears the interval and goes to "/home"; the SOS store is not
        touched by this screen. */
    method StopSos() returns (route: string)
      modifies this
      ensures !intervalRunning && timeRemaining == old(timeRemaining) && route == "/home"
    {
      intervalRunning := false;
      route := "/home";
    }

    /** `handleAddProof`. */
    method AddProof() returns (route: string)
      ensures route == "/add-proof"
    {
      route := "/add-proof";
    }
  }
}
