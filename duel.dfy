/**
 * The duel's scripted power bars (startDuelSequence and startDynamicDominance),
 * as a timeline of widths measured from the entry of the duel phase.
 */
module Duel {
  import Timing

  /** Widths, in percent, of the menina and menino bars from `atMs` on. */
  datatype Bars = Bars(atMs: nat, menina: nat, menino: nat)

  /** startDuelSequence hands over to startDynamicDominance after the loading stage. */
  const LoadingMs: nat := 3000
  /** startDynamicDominance's reversal and final timers, relative to its own start. */
  const ReversalDelayMs: nat := 3000
  const FinalDelayMs: nat := 7000
  /** The second line of the victory sequence, relative to the final stage. */
  const VictoryLineDelayMs: nat := 5000

  /** Loading (50/50), menina leads (85/15), reversal (25/75), menina wins (100/0). */
  function Timeline(): (tl: seq<Bars>)
    ensures |tl| == 4
    ensures forall i :: 0 <= i < |tl| ==> tl[i].atMs < Timing.Shipped.duel
    ensures forall i :: 0 <= i < |tl| ==> tl[i].menina + tl[i].menino == 100
    ensures forall i, j :: 0 <= i < j < |tl| ==> tl[i].atMs < tl[j].atMs
    ensures tl[0] == Bars(0, 50, 50) && tl[3] == Bars(10000, 100, 0)
  {
    [ Bars(0, 50, 50),
      Bars(LoadingMs, 85, 15),
      Bars(LoadingMs + ReversalDelayMs, 25, 75),
      Bars(LoadingMs + FinalDelayMs, 100, 0) ]
  }

  /** Offsets of the suspense cues of the duel: the entry, the loading stage, and the two victory lines. */
  function SuspenseCues(): (cues: seq<nat>)
    ensures |cues| == 4 && cues[0] == 0
    ensures forall i, j :: 0 <= i < j < |cues| ==> cues[i] < cues[j]
    ensures forall i :: 0 <= i < |cues| ==> cues[i] < Timing.Shipped.duel
  {
    [0, 500, LoadingMs + FinalDelayMs, LoadingMs + FinalDelayMs + VictoryLineDelayMs]
  }

  /** The widths on screen at time `t`, applying every update of `tl` due by then in order. */
  function WidthsAt(tl: seq<Bars>, t: nat, shown: (nat, nat)): (nat, nat)
    decreases |tl|
  {
    if tl == [] then shown
    else if tl[0].atMs <= t then WidthsAt(tl[1..], t, (tl[0].menina, tl[0].menino))
    else WidthsAt(tl[1..], t, shown)
  }

  /**
   * Whatever the earlier updates and whatever was on screen before, once the
   * last update of a timeline is due, its widths are what is shown.
   */
  lemma {:induction false} LastUpdateWins(earlier: seq<Bars>, last: Bars, t: nat, shown: (nat, nat))
    requires last.atMs <= t
    ensures WidthsAt(earlier + [last], t, shown) == (last.menina, last.menino)
    decreases |earlier|
  {
    if earlier == [] {
      assert [last][1..] == [];
    } else {
      var rest := earlier[1..];
      assert (earlier + [last])[1..] == rest + [last];
      if earlier[0].atMs <= t {
        LastUpdateWins(rest, last, t, (earlier[0].menina, earlier[0].menino));
      } else {
        LastUpdateWins(rest, last, t, shown);
      }
    }
  }

  /** From 10 s into the duel until the Reveal phase at 20 s, the bars read menina 100 %, menino 0 %. */
  lemma MeninaWins(t: nat, shown: (nat, nat))
    requires 10000 <= t <= Timing.Shipped.duel
    ensures WidthsAt(Timeline(), t, shown) == (100, 0)
  {
    var tl := Timeline();
    assert tl == tl[..3] + [tl[3]];
    LastUpdateWins(tl[..3], tl[3], t, shown);
  }
}
