/**
 * The show's timing configuration (EXPERIENCE_CONFIG.timing), the phase
 * sequence its timers drive, and the two countdowns, stated on values.
 */
module Timing {
  import opened Wrappers

  /** The `timing` block: the landing countdown in seconds, each phase in milliseconds. */
  datatype Config = Config(countdown: nat, mystery: nat, buildup: nat, duel: nat, revealMs: nat, celebration: nat)

  /** The configuration the show ships with. */
  const Shipped: Config := Config(10, 14000, 17000, 20000, 8000, 20000)

  /** Absolute offsets, from the start of the countdown, that scheduleAutoAudioPlayback computes. */
  datatype Checkpoints = Checkpoints(countdownTime: nat, mysteryTime: nat, buildupTime: nat, celebrationTime: nat)

  function AudioCheckpoints(c: Config): (r: Checkpoints)
    ensures r.countdownTime == c.countdown * 1000
    ensures r.countdownTime <= r.mysteryTime <= r.buildupTime <= r.celebrationTime
    ensures r.mysteryTime - r.countdownTime == c.mystery
    ensures r.buildupTime - r.mysteryTime == c.buildup
    ensures r.celebrationTime - r.buildupTime == c.duel + c.revealMs
  {
    var countdownTime := c.countdown * 1000;
    var mysteryTime := countdownTime + c.mystery;
    var buildupTime := mysteryTime + c.buildup;
    Checkpoints(countdownTime, mysteryTime, buildupTime, buildupTime + c.duel + c.revealMs)
  }

  /** totalTimeUntilCelebration, which counts the Reveal duration twice; it is only logged. */
  function TotalTimeUntilCelebration(c: Config): (r: nat)
    ensures r == AudioCheckpoints(c).celebrationTime + c.revealMs
    ensures r >= c.countdown * 1000 + c.mystery + c.buildup + c.duel
  {
    c.countdown * 1000 + c.mystery + c.buildup + c.duel + c.revealMs + c.revealMs
  }

  lemma ShippedCheckpoints()
    ensures AudioCheckpoints(Shipped) == Checkpoints(10000, 24000, 41000, 69000)
    ensures TotalTimeUntilCelebration(Shipped) == 77000
  {
  }

  /** The `currentPhase` tag. */
  datatype Phase = Landing | Countdown | Mystery | Buildup | Duel | Reveal | Celebration

  /** Position of a phase in the intended order Landing < Countdown < ... < Celebration. */
  function Rank(p: Phase): (r: nat)
    ensures r <= 6
    ensures p == Landing <==> r == 0
    ensures p == Celebration <==> r == 6
  {
    match p
    case Landing => 0
    case Countdown => 1
    case Mystery => 2
    case Buildup => 3
    case Duel => 4
    case Reveal => 5
    case Celebration => 6
  }

  /** The phases during which stopInappropriateAudio silences the climax track. */
  predicate ForbidsClimax(p: Phase)
  {
    p == Mystery || p == Countdown || p == Duel || p == Reveal || p == Celebration
  }

  lemma ForbidsClimaxExactly(p: Phase)
    ensures ForbidsClimax(p) <==> p != Landing && p != Buildup
  {
  }

  /** Interval period of the landing countdown and the fade that follows it (transitionToMystery). */
  const CountdownPeriodMs: nat := 1000
  const LandingFadeMs: nat := 1000
  /** startFinalCountdown: five counts of 1200 ms. */
  const FinalCountdownFrom: nat := 5
  const FinalPeriodMs: nat := 1200
  /** startExperience waits 1000 ms before startCountdown, and 300 ms more on mobile. */
  const StartDelayMs: nat := 1000
  const MobileSettleMs: nat := 300

  /** What a phase's code arms in order to leave it. */
  datatype Schedule =
    | Timeout(delayMs: nat, target: Phase)
    | Interval(ticks: nat, periodMs: nat, settleMs: nat, target: Phase)
    | Terminal

  /** The phase that a phase's code schedules next; 'countdown' is never assigned, so nothing leaves it. */
  function Next(p: Phase): (q: Option<Phase>)
    ensures q.Some? ==> Rank(p) < Rank(q.value)
    ensures q.Some? ==> q.value != Countdown
  {
    match p
    case Landing => Some(Mystery)
    case Countdown => None
    case Mystery => Some(Buildup)
    case Buildup => Some(Duel)
    case Duel => Some(Reveal)
    case Reveal => Some(Celebration)
    case Celebration => None
  }

  /** Number of interval ticks until a countdown started at `count` clears itself. */
  function TicksToFire(count: int): (n: nat)
    ensures n >= 1
  {
    if count <= 1 then 1 else count
  }

  /**
   * The timer each phase arms: the landing countdown (then the 1000 ms fade),
   * the mystery timeout, the final 5 x 1200 ms countdown of the buildup (the
   * configured buildup duration is never used), and the Duel and Reveal timeouts.
   */
  function ScheduleFrom(p: Phase, c: Config): (s: Schedule)
    ensures s.Terminal? <==> Next(p).None?
    ensures !s.Terminal? ==> Next(p) == Some(s.target)
  {
    match p
    case Landing => Interval(TicksToFire(c.countdown), CountdownPeriodMs, LandingFadeMs, Mystery)
    case Countdown => Terminal
    case Mystery => Timeout(c.mystery, Buildup)
    case Buildup => Interval(TicksToFire(FinalCountdownFrom), FinalPeriodMs, 0, Duel)
    case Duel => Timeout(c.duel, Reveal)
    case Reveal => Timeout(c.revealMs, Celebration)
    case Celebration => Terminal
  }

  function DelayOf(s: Schedule): nat
  {
    match s
    case Timeout(d, _) => d
    case Interval(n, period, settle, _) => n * period + settle
    case Terminal => 0
  }

  /** The phases the show passes through from `p`, following the timers. */
  function Chain(p: Phase): seq<Phase>
    decreases 6 - Rank(p)
  {
    match Next(p)
    case None => [p]
    case Some(q) => [p] + Chain(q)
  }

  /** Strictly increasing order along every chain: no phase is ever re-entered. */
  lemma {:induction false} ChainAdvances(p: Phase)
    ensures |Chain(p)| >= 1 && Chain(p)[0] == p
    ensures forall i, j :: 0 <= i < j < |Chain(p)| ==> Rank(Chain(p)[i]) < Rank(Chain(p)[j])
    decreases 6 - Rank(p)
  {
    match Next(p)
    case None =>
    case Some(q) =>
      ChainAdvances(q);
      var c := Chain(p);
      assert c == [p] + Chain(q);
      forall i, j | 0 <= i < j < |c|
        ensures Rank(c[i]) < Rank(c[j])
      {
        if i == 0 {
          assert c[j] == Chain(q)[j - 1];
          if j > 1 {
            assert Rank(Chain(q)[0]) < Rank(Chain(q)[j - 1]);
          }
        } else {
          assert c[i] == Chain(q)[i - 1] && c[j] == Chain(q)[j - 1];
        }
      }
  }

  /** From Landing the tag runs Landing, Mystery, Buildup, Duel, Reveal, Celebration; 'countdown' never appears. */
  lemma LandingChain()
    ensures Chain(Landing) == [Landing, Mystery, Buildup, Duel, Reveal, Celebration]
    ensures Countdown !in Chain(Landing)
  {
  }

  /** Milliseconds from a phase's entry until the celebration phase is entered. */
  function TimeToCelebration(p: Phase, c: Config): nat
    decreases 6 - Rank(p)
  {
    match Next(p)
    case None => 0
    case Some(q) => DelayOf(ScheduleFrom(p, c)) + TimeToCelebration(q, c)
  }

  /** Milliseconds from the Start click until the celebration phase is entered. */
  function ElapsedToCelebration(c: Config, isMobile: bool): nat
  {
    (if isMobile then MobileSettleMs else 0) + StartDelayMs + TimeToCelebration(Landing, c)
  }

  /** The configured buildup duration plays no part in when the celebration begins. */
  lemma BuildupDurationUnused(c: Config, b: nat, isMobile: bool)
    ensures ElapsedToCelebration(c.(buildup := b), isMobile) == ElapsedToCelebration(c, isMobile)
  {
  }

  /** 60 s on desktop, against the 69 s celebration checkpoint and the 77 s logged total. */
  lemma ShippedElapsed()
    ensures ElapsedToCelebration(Shipped, false) == 60000
    ensures ElapsedToCelebration(Shipped, true) == 60300
    ensures ElapsedToCelebration(Shipped, false) < AudioCheckpoints(Shipped).celebrationTime
  {
  }

  /** One interval callback of a countdown: the value shown (if any) and whether it cleared itself. */
  datatype Tick = Tick(shown: Option<int>, fires: bool)

  /**
   * A tick from `count`: decrement, and clear once the count is no longer
   * positive. The landing countdown shows every value including 0; the final
   * countdown shows only positive ones.
   */
  function TickAt(count: int, showsZero: bool): Tick
  {
    var c := count - 1;
    Tick(if c > 0 || showsZero then Some(c) else None, c <= 0)
  }

  /** The ticks of a countdown started at `count`, up to the one that clears it. */
  function Ticks(count: int, showsZero: bool): seq<Tick>
    decreases count
  {
    if count - 1 <= 0 then [TickAt(count, showsZero)]
    else [TickAt(count, showsZero)] + Ticks(count - 1, showsZero)
  }

  /** A countdown from n fires exactly once, on its n-th tick, and shows n-1, n-2, ... in order. */
  lemma {:induction false} TicksShape(n: int, showsZero: bool)
    requires n >= 1
    ensures |Ticks(n, showsZero)| == n
    ensures forall i :: 0 <= i < n ==> (Ticks(n, showsZero)[i].fires <==> i == n - 1)
    ensures forall i :: 0 <= i < n - 1 ==> Ticks(n, showsZero)[i].shown == Some(n - 1 - i)
    ensures Ticks(n, showsZero)[n - 1].shown == if showsZero then Some(0) else None
    decreases n
  {
    if n > 1 {
      TicksShape(n - 1, showsZero);
      var ts := Ticks(n, showsZero);
      assert ts == [TickAt(n, showsZero)] + Ticks(n - 1, showsZero);
      forall i | 1 <= i < n
        ensures ts[i] == Ticks(n - 1, showsZero)[i - 1]
      {
      }
    }
  }

  /** startCountdown shows 9 .. 0 and calls transitionToMystery only on its 10th tick. */
  lemma LandingCountdown()
    ensures |Ticks(Shipped.countdown, true)| == 10
    ensures forall i :: 0 <= i < 10 ==> Ticks(Shipped.countdown, true)[i].shown == Some(9 - i)
    ensures forall i :: 0 <= i < 10 ==> (Ticks(Shipped.countdown, true)[i].fires <==> i == 9)
  {
    TicksShape(10, true);
  }

  /** startFinalCountdown shows 4 .. 1 and calls startDuelPhase only on its 5th tick. */
  lemma FinalCountdown()
    ensures |Ticks(FinalCountdownFrom, false)| == 5
    ensures forall i :: 0 <= i < 4 ==> Ticks(FinalCountdownFrom, false)[i].shown == Some(4 - i)
    ensures Ticks(FinalCountdownFrom, false)[4] == Tick(None, true)
    ensures forall i :: 0 <= i < 4 ==> !Ticks(FinalCountdownFrom, false)[i].fires
  {
    TicksShape(5, false);
  }
}
