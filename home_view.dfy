/**
 * The home screen's sleep timer: `timerString(from:)` renders a number of
 * seconds as `HH : MM : SS` (or `MM : SS` under an hour), `startTimer()` starts
 * a 15-minute countdown on a repeating one-second timer whose tick counts down
 * and stops it at zero, and `clamped(to:)` bounds a value to a closed range.
 * The view's layout, its heart-rate trace and its sound picker are presentation
 * and are not part of this model.
 */
module HomeViewModel {
  import opened Wrappers
  import opened Timing

  // ----- Swift's integer division and remainder (truncating) -----

  /** Swift's `a / b` on `Int`: rounds toward zero, so what is left over has
      the sign of `a` and is smaller than `b`. */
  function Quot(a: int, b: int): (q: int)
    requires b > 0
    ensures a >= 0 ==> 0 <= a - q * b < b
    ensures a < 0 ==> -b < a - q * b <= 0
  {
    if a >= 0 then a / b else -((-a) / b)
  }

  /** Swift's `a % b` on `Int`: takes the sign of `a`. */
  function Rem(a: int, b: int): (r: int)
    requires b > 0
    ensures a >= 0 ==> 0 <= r < b
    ensures a < 0 ==> -b < r <= 0
  {
    if a >= 0 then a % b else -((-a) % b)
  }

  /** Quotient times divisor plus remainder gives back the dividend. */
  lemma QuotRemDivision(a: int, b: int)
    requires b > 0
    ensures b * Quot(a, b) + Rem(a, b) == a
  {
    if a < 0 {
      var q := (-a) / b;
      assert b * q + (-a) % b == -a;
      assert b * -q == -(b * q);
    }
  }

  lemma QuotRemNegate(a: int, b: int)
    requires b > 0
    ensures Quot(-a, b) == -Quot(a, b) && Rem(-a, b) == -Rem(a, b)
  {
    if a > 0 {
      assert Quot(-a, b) == -(a / b) && Rem(-a, b) == -(a % b) by { assert -(-a) == a; }
    } else if a < 0 {
      assert Quot(a, b) == -((-a) / b) && Rem(a, b) == -((-a) % b);
    }
  }

  // ----- timerString(from:) -----

  /** The three fields `timerString` prints. */
  datatype Clock = Clock(h: int, m: int, s: int)

  /** `h = seconds / 3600`, `m = (seconds % 3600) / 60`, `s = seconds % 60`. */
  function Fields(seconds: int): Clock {
    Clock(Quot(seconds, 3600), Quot(Rem(seconds, 3600), 60), Rem(seconds, 60))
  }

  /** A non-negative count of seconds splits uniquely into hours and
      sub-hour minutes and seconds. */
  lemma SplitSeconds(t: int, h: int, m: int, s: int)
    requires t >= 0 && h >= 0 && 0 <= m < 60 && 0 <= s < 60
    requires t == h * 3600 + m * 60 + s
    ensures Fields(t) == Clock(h, m, s)
  {
    assert t / 3600 == h && t % 3600 == m * 60 + s;
    assert (m * 60 + s) / 60 == m;
    assert t / 60 == h * 60 + m && t % 60 == s;
  }

  /**
   * The fields recompose to the count for every count; for a non-negative
   * count they lie in range and the hours field is positive exactly from one
   * hour on; a negative count gives the negated fields of its magnitude.
   */
  lemma {:induction false} FieldsRecompose(seconds: int)
    ensures var c := Fields(seconds); c.h * 3600 + c.m * 60 + c.s == seconds
    ensures seconds >= 0 ==> var c := Fields(seconds);
      c.h >= 0 && 0 <= c.m <= 59 && 0 <= c.s <= 59 && (c.h > 0 <==> seconds >= 3600)
    ensures seconds < 0 ==> var c := Fields(seconds); var p := Fields(-seconds);
      c == Clock(-p.h, -p.m, -p.s)
  {
    var t := if seconds >= 0 then seconds else -seconds;
    var h, r := t / 3600, t % 3600;
    SplitSeconds(t, h, r / 60, r % 60);
    if seconds < 0 {
      QuotRemNegate(t, 3600);
      QuotRemNegate(t, 60);
      QuotRemNegate(r, 60);
    }
  }

  // ----- %02d -----

  predicate IsDigit(c: char) { '0' <= c <= '9' }

  predicate AllDigits(ds: string) { forall i :: 0 <= i < |ds| ==> IsDigit(ds[i]) }

  function DigitChar(d: nat): (c: char)
    requires d < 10
    ensures IsDigit(c)
  {
    ('0' as int + d) as char
  }

  function DigitVal(c: char): (d: nat)
    requires IsDigit(c)
    ensures d < 10
  {
    c as int - '0' as int
  }

  /** The number a string of decimal digits denotes. */
  function DigitsValue(ds: string): nat
    requires AllDigits(ds)
    decreases |ds|
  {
    if ds == [] then 0 else DigitsValue(ds[..|ds| - 1]) * 10 + DigitVal(ds[|ds| - 1])
  }

  /** The shortest decimal rendering of `n`. */
  function Digits(n: nat): (ds: string)
    ensures |ds| >= 1 && AllDigits(ds) && DigitsValue(ds) == n
    ensures |ds| == 1 <==> n < 10
    ensures n < 100 ==> |ds| <= 2
    ensures |ds| == 1 || ds[0] != '0'
    decreases n
  {
    if n < 10 then [DigitChar(n)]
    else
      var hi := Digits(n / 10);
      var ds := hi + [DigitChar(n % 10)];
      assert ds[..|ds| - 1] == hi;
      assert |hi| == 1 ==> DigitsValue(hi) == DigitVal(hi[0]) by {
        if |hi| == 1 { assert hi[..0] == []; }
      }
      ds
  }

  /** `%02d`: at least two digits, zero-padded; a negative number is a minus
      sign and its magnitude's digits (the sign counts toward the width). */
  function Pad2(n: int): (r: string)
    ensures n >= 0 ==> |r| >= 2 && AllDigits(r) && DigitsValue(r) == n
    ensures 0 <= n < 100 ==> |r| == 2
    ensures n < 0 ==> |r| >= 2 && r[0] == '-'
  {
    if n < 0 then "-" + Digits(-n)
    else if n < 10 then
      var r := ['0', DigitChar(n)];
      assert r[..1] == ['0'] && ['0'][..0] == [];
      r
    else Digits(n)
  }

  const Separator: string := " : "

  /** `timerString(from:)`: `%02d : %02d : %02d` from one hour on, `%02d : %02d` below. */
  function TimerString(seconds: int): string {
    Render(Fields(seconds))
  }

  function Render(c: Clock): string {
    if c.h > 0 then Pad2(c.h) + (Separator + (Pad2(c.m) + (Separator + Pad2(c.s))))
    else Pad2(c.m) + (Separator + Pad2(c.s))
  }

  // ----- reading a rendered time back -----

  /** The length of the run of digits at the front of `s`. */
  function LeadingDigits(s: string): (k: nat)
    ensures k <= |s| && AllDigits(s[..k]) && (k < |s| ==> !IsDigit(s[k]))
    decreases |s|
  {
    if s == [] || !IsDigit(s[0]) then 0
    else
      var k := 1 + LeadingDigits(s[1..]);
      assert s[..k] == [s[0]] + s[1..][..k - 1];
      k
  }

  /** Digit groups separated by `" : "`. */
  function ParseFields(s: string): Option<seq<nat>>
    decreases |s|
  {
    var k := LeadingDigits(s);
    if k == 0 then None
    else
      var v := DigitsValue(s[..k]);
      var rest := s[k..];
      if rest == [] then Some([v])
      else if |rest| >= |Separator| && rest[..|Separator|] == Separator then
        match ParseFields(rest[|Separator|..])
        case None => None
        case Some(fs) => Some([v] + fs)
      else None
  }

  /** The count of seconds a rendered time denotes. */
  function ParseTimer(s: string): Option<int> {
    match ParseFields(s)
    case None => None
    case Some(fs) =>
      if |fs| == 2 then Some(fs[0] * 60 + fs[1])
      else if |fs| == 3 then Some(fs[0] * 3600 + fs[1] * 60 + fs[2])
      else None
  }

  lemma {:induction false} LeadingDigitsOf(d: string, rest: string)
    requires AllDigits(d) && (rest == [] || !IsDigit(rest[0]))
    ensures LeadingDigits(d + rest) == |d|
    decreases |d|
  {
    if d != [] {
      assert (d + rest)[1..] == d[1..] + rest;
      LeadingDigitsOf(d[1..], rest);
    }
  }

  lemma ParseLast(d: string)
    requires |d| >= 1 && AllDigits(d)
    ensures ParseFields(d) == Some([DigitsValue(d)])
  {
    LeadingDigitsOf(d, []);
    assert d + [] == d;
  }

  lemma ParseCons(d: string, tail: string)
    requires |d| >= 1 && AllDigits(d)
    ensures ParseFields(d + (Separator + tail)) ==
      match ParseFields(tail) case None => None case Some(fs) => Some([DigitsValue(d)] + fs)
  {
    var s := d + (Separator + tail);
    LeadingDigitsOf(d, Separator + tail);
    assert s[..|d|] == d;
    assert s[|d|..] == Separator + tail;
    assert (Separator + tail)[..|Separator|] == Separator;
    assert (Separator + tail)[|Separator|..] == tail;
  }

  /** Minutes and seconds are read back from their rendering. */
  lemma ShortParses(m: nat, s: nat)
    ensures ParseFields(Pad2(m) + (Separator + Pad2(s))) == Some([m, s])
  {
    ParseLast(Pad2(s));
    ParseCons(Pad2(m), Pad2(s));
    assert [m] + [s] == [m, s];
  }

  /** Hours, minutes and seconds are read back from their rendering. */
  lemma LongParses(h: nat, m: nat, s: nat)
    ensures ParseFields(Pad2(h) + (Separator + (Pad2(m) + (Separator + Pad2(s))))) == Some([h, m, s])
  {
    ShortParses(m, s);
    ParseCons(Pad2(h), Pad2(m) + (Separator + Pad2(s)));
    assert [h] + [m, s] == [h, m, s];
  }

  /** Reading a rendered non-negative time gives back its fields (three of them
      exactly when there is at least an hour) and so the count itself. */
  lemma TimerStringRoundTrip(seconds: int)
    requires seconds >= 0
    ensures var c := Fields(seconds);
      ParseFields(TimerString(seconds)) == Some(if c.h > 0 then [c.h, c.m, c.s] else [c.m, c.s])
    ensures ParseTimer(TimerString(seconds)) == Some(seconds)
  {
    var c := Fields(seconds);
    assert c.h >= 0 && c.m >= 0 && c.s >= 0 && c.h * 3600 + c.m * 60 + c.s == seconds by {
      FieldsRecompose(seconds);
    }
    var fs: seq<nat> := if c.h > 0 then [c.h, c.m, c.s] else [c.m, c.s];
    assert ParseFields(TimerString(seconds)) == Some(fs) by {
      if c.h > 0 {
        LongParses(c.h, c.m, c.s);
      } else {
        ShortParses(c.m, c.s);
      }
    }
    ParseTimerOf(TimerString(seconds), c, seconds);
  }

  lemma ParseTimerOf(text: string, c: Clock, seconds: int)
    requires c.h >= 0 && c.m >= 0 && c.s >= 0 && c.h * 3600 + c.m * 60 + c.s == seconds
    requires ParseFields(text) == Some(if c.h > 0 then [c.h, c.m, c.s] else [c.m, c.s])
    ensures ParseTimer(text) == Some(seconds)
  {
  }

  // ----- the countdown -----

  /** The countdown's observable state: seconds left and whether it runs. */
  datatype Countdown = Countdown(remaining: int, running: bool)

  /** One firing of the one-second timer: count down while above zero, stop at zero. */
  function CountdownTick(c: Countdown): Countdown {
    if c.remaining > 0 then Countdown(c.remaining - 1, c.running) else Countdown(c.remaining, false)
  }

  function Ticks(c: Countdown, k: nat): Countdown {
    if k == 0 then c else CountdownTick(Ticks(c, k - 1))
  }

  /** A run started at N counts down one per tick for N ticks and stops on
      tick N + 1, never going below zero. */
  lemma {:induction false} CountdownRun(n: nat, k: nat)
    ensures k <= n ==> Ticks(Countdown(n, true), k) == Countdown(n - k, true)
    ensures k == n + 1 ==> Ticks(Countdown(n, true), k) == Countdown(0, false)
  {
    if k > 0 {
      CountdownRun(n, k - 1);
    }
  }

  const DefaultSeconds: int := 15 * 60

  class HomeView {
    var remainingSeconds: int
    var userSetSeconds: int
    var isTimerRunning: bool
    var countDownTimer: Option<TimerHandle>
    const runLoop: RunLoop

    /** The countdown runs exactly while it has a timer, which is then the only
        live one; the seconds left never go negative. */
    ghost predicate Valid()
      reads this, runLoop
    {
      && runLoop.Valid()
      && remainingSeconds >= 0 && userSetSeconds >= 0
      && (isTimerRunning <==> countDownTimer.Some?)
      && (match countDownTimer case None => runLoop.live == {} case Some(t) => runLoop.live == {t})
    }

    function State(): Countdown
      reads this
    {
      Countdown(remainingSeconds, isTimerRunning)
    }

    constructor (runLoop: RunLoop)
      requires runLoop.Valid() && runLoop.live == {}
      ensures Valid() && this.runLoop == runLoop
      ensures remainingSeconds == DefaultSeconds && userSetSeconds == DefaultSeconds
      ensures !isTimerRunning && countDownTimer == None
    {
      remainingSeconds, userSetSeconds := DefaultSeconds, DefaultSeconds;
      isTimerRunning, countDownTimer := false, None;
      this.runLoop := runLoop;
    }

    /** `startTimer()`: reset to the set duration, run, and replace any previous
        countdown timer by a fresh one. */
    method StartTimer()
      requires Valid()
      modifies this`remainingSeconds, this`isTimerRunning, this`countDownTimer, runLoop
      ensures Valid()
      ensures State() == Countdown(userSetSeconds, true)
      ensures countDownTimer.Some? && countDownTimer.value !in old(runLoop.live)
      ensures runLoop.live == {countDownTimer.value}
    {
      remainingSeconds := userSetSeconds;
      isTimerRunning := true;
      if countDownTimer.Some? {
        runLoop.Invalidate(countDownTimer.value);
      }
      var t := runLoop.Schedule();
      countDownTimer := Some(t);
    }

    /** One firing of the countdown timer, which is live only while the
        countdown runs. */
    method Tick()
      requires Valid() && countDownTimer.Some?
      modifies this`remainingSeconds, this`isTimerRunning, this`countDownTimer, runLoop`live
      ensures Valid()
      ensures State() == CountdownTick(old(State()))
      ensures old(remainingSeconds) > 0 ==> countDownTimer == old(countDownTimer) && runLoop.live == old(runLoop.live)
      ensures old(remainingSeconds) == 0 ==> countDownTimer == None && runLoop.live == {}
    {
      if remainingSeconds > 0 {
        remainingSeconds := remainingSeconds - 1;
      } else {
        runLoop.Invalidate(countDownTimer.value);
        countDownTimer := None;
        isTimerRunning := false;
      }
    }
  }

  // ----- clamped(to:) -----

  /** `min(max(x, lo), hi)` with Swift's `min`/`max`; the range is a valid
      `ClosedRange`, so `lo <= hi`. */
  function Clamped(x: real, lo: real, hi: real): (r: real)
    requires lo <= hi
    ensures lo <= r <= hi
    ensures lo <= x <= hi ==> r == x
    ensures x < lo ==> r == lo
    ensures hi < x ==> r == hi
  {
    var up := if lo >= x then lo else x;
    if hi < up then hi else up
  }
}
