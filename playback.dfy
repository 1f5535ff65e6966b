/**
 * The music tracks' play attempts as functions of the browser's answers.
 * `plays[k]` says whether the k-th `play()` of one attempt resolves; an
 * attempt that asks for more answers than given sees a rejection.
 */
module Playback {
  import opened Media

  predicate Resolves(plays: seq<bool>, k: nat)
  {
    k < |plays| && plays[k]
  }

  /** Volume of the celebration song while it plays: 0.9 on mobile, 0.7 on desktop. */
  function CelebrationVolume(isMobile: bool): Volume
  {
    if isMobile then 90 else 70
  }

  /** Volume of the climax cue while it plays: 0.9 on mobile, 0.8 on desktop. */
  function ClimaxVolume(isMobile: bool): Volume
  {
    if isMobile then 90 else 80
  }

  /**
   * How many of the three silent unlock rounds (answers 1, 2 and 3) pass
   * before the first rejection ends the loop.
   */
  function UnlockRounds(plays: seq<bool>): (n: nat)
    ensures n <= 3
    ensures forall k :: 1 <= k <= n ==> Resolves(plays, k)
    ensures n < 3 ==> !Resolves(plays, n + 1)
  {
    if !Resolves(plays, 1) then 0
    else if !Resolves(plays, 2) then 1
    else if !Resolves(plays, 3) then 2
    else 3
  }

  /** Which strategy of `playCelebrationMusicDefinitive` ends the attempt. */
  datatype Rung = Direct | Aggressive | Button

  function CelebrationRung(isMobile: bool, plays: seq<bool>): Rung
  {
    if Resolves(plays, 0) then Direct
    else if isMobile && UnlockRounds(plays) == 3 && Resolves(plays, 4) then Aggressive
    else Button
  }

  /**
   * The celebration track after `playCelebrationMusicDefinitive`: stopped and
   * set to its volume, then one direct play; on mobile, after a rejection,
   * three muted silent play/pause rounds and a real play at 0.9 unmuted. A
   * rejected round leaves the track muted at volume 0.
   */
  function CelebrationTrack(isMobile: bool, plays: seq<bool>, s: TrackState): (r: TrackState)
    ensures r.position == 0 && r.preloadAuto == s.preloadAuto
    ensures !r.paused ==> r.volume == CelebrationVolume(isMobile)
    ensures Resolves(plays, 0) ==> !r.paused && r.muted == s.muted
  {
    var s0 := s.Stopped().(volume := CelebrationVolume(isMobile));
    if Resolves(plays, 0) then s0.(paused := false)
    else if !isMobile then s0
    else if UnlockRounds(plays) < 3 then s0.(muted := true, volume := 0)
    else if Resolves(plays, 4) then s0.(muted := false, volume := 90, paused := false)
    else s0.(muted := false, volume := 90)
  }

  /** The manual button appears exactly when the ladder leaves the song paused. */
  lemma ButtonIffStillPaused(isMobile: bool, plays: seq<bool>, s: TrackState)
    ensures CelebrationRung(isMobile, plays) == Button <==> CelebrationTrack(isMobile, plays, s).paused
  {
  }

  /** On desktop the ladder makes a single attempt; a rejection goes straight to the button. */
  lemma DesktopSingleAttempt(plays: seq<bool>, s: TrackState)
    ensures CelebrationRung(false, plays) == Button <==> !Resolves(plays, 0)
    ensures CelebrationTrack(false, plays, s) == CelebrationTrack(false, plays[..if |plays| > 0 then 1 else 0], s)
  {
  }

  /** Two rejections in a row (the direct play and the first silent round) show the button. */
  lemma TwoRejectionsShowButton(isMobile: bool, plays: seq<bool>)
    requires !Resolves(plays, 0) && !Resolves(plays, 1)
    ensures CelebrationRung(isMobile, plays) == Button
  {
  }

  /**
   * A rejected silent round leaves the song muted at volume 0, and the
   * manual button sets the volume but not `muted`: a click that plays
   * plays it inaudibly.
   */
  lemma FailedRoundLeavesMuted(plays: seq<bool>, s: TrackState)
    requires !Resolves(plays, 0) && UnlockRounds(plays) < 3
    ensures var r := CelebrationTrack(true, plays, s);
      r.paused && r.muted && ButtonPlay(true, true, r).muted && !ButtonPlay(true, true, r).paused
  {
  }

  /** A click on the manual button: set the volume, then one play. */
  function ButtonPlay(isMobile: bool, resolves: bool, s: TrackState): (r: TrackState)
    ensures r.volume == CelebrationVolume(isMobile) && r.muted == s.muted && r.position == s.position
    ensures !r.paused <==> resolves || !s.paused
  {
    var v := s.(volume := CelebrationVolume(isMobile));
    if resolves then v.(paused := false) else v
  }

  /**
   * The climax track after `playClimaxMusic`: stopped at its volume, one
   * play once it can play (`ready`: loaded, or `canplay` within 5 s); on
   * mobile, after a failure, a silent play at volume 0 and, if that
   * resolves, a rewind and a play at 0.9. Answers are read by slot: slot 0
   * is the direct play and slots 1 and 2 the retry's two plays. When
   * `ready` is false the direct play is never made and slot 0 goes unread,
   * so the retry's first `play()` is still answered by `plays[1]`.
   */
  function ClimaxTrack(isMobile: bool, ready: bool, plays: seq<bool>, s: TrackState): (r: TrackState)
    ensures r.position == 0 && r.muted == s.muted && r.preloadAuto == s.preloadAuto
    ensures !r.paused ==> r.volume == ClimaxVolume(isMobile)
  {
    var s0 := s.Stopped().(volume := ClimaxVolume(isMobile));
    if ready && Resolves(plays, 0) then s0.(paused := false)
    else if !isMobile then s0
    else if !Resolves(plays, 1) then s0.(volume := 0)
    else if Resolves(plays, 2) then s0.(volume := 90, paused := false)
    else s0.(volume := 90)
  }

  /** When the climax cue plays: the direct play, or on mobile the two-step retry. */
  lemma ClimaxPlaysIff(isMobile: bool, ready: bool, plays: seq<bool>, s: TrackState)
    ensures !ClimaxTrack(isMobile, ready, plays, s).paused <==>
      (ready && Resolves(plays, 0)) || (isMobile && Resolves(plays, 1) && Resolves(plays, 2))
  {
  }

  /** On mobile, a rejected silent retry leaves the cue paused at volume 0. */
  lemma ClimaxRetryLeavesSilent(ready: bool, plays: seq<bool>, s: TrackState)
    requires !(ready && Resolves(plays, 0)) && !Resolves(plays, 1)
    ensures ClimaxTrack(true, ready, plays, s).paused && ClimaxTrack(true, ready, plays, s).volume == 0
  {
  }

  /**
   * One unlock probe: muted at volume 0, one play; if it resolves the track
   * is paused, rewound and unmuted (its volume stays 0).
   */
  function Probe(s: TrackState, resolves: bool): (r: TrackState)
    ensures r.volume == 0 && r.preloadAuto == s.preloadAuto
    ensures resolves ==> r.paused && r.position == 0 && !r.muted
    ensures !resolves ==> r.muted && r.paused == s.paused && r.position == s.position
  {
    var m := s.(volume := 0, muted := true);
    if resolves then m.Stopped().(muted := false) else m
  }

  /** The volume after the k-th fade step: 0.05 more each step, clamped at the target. */
  function FadeLevel(target: Volume, k: nat): (v: Volume)
    ensures v <= target
    ensures v == target || v == 5 * (k + 1)
  {
    if 5 * (k + 1) >= target then target else 5 * (k + 1)
  }

  /** Steps the fade takes: the first step that reaches the target ends it. */
  function FadeSteps(target: Volume): (n: nat)
    ensures n >= 1
    ensures FadeLevel(target, n - 1) == target
    ensures forall k :: 0 <= k < n - 1 ==> FadeLevel(target, k) < target
  {
    if target <= 5 then 1 else (target + 4) / 5
  }

  lemma ShippedFades()
    ensures FadeSteps(CelebrationVolume(false)) == 14 && FadeSteps(80) == 16
  {
  }

  /**
   * The fade-in interval of `playCelebrationMusic`, one iteration per tick;
   * the volumes written are returned in order.
   */
  method FadeIn(track: Track, target: Volume) returns (levels: seq<Volume>)
    modifies track
    ensures |levels| == FadeSteps(target)
    ensures forall k :: 0 <= k < |levels| ==> levels[k] == FadeLevel(target, k)
    ensures forall i, j :: 0 <= i < j < |levels| ==> levels[i] < levels[j]
    ensures track.State() == old(track.State()).(volume := target)
  {
    var volume: nat := 0;
    var done := false;
    levels := [];
    while !done
      invariant !done ==> volume == 5 * |levels| && (|levels| > 0 ==> volume < target)
      invariant done ==> |levels| == FadeSteps(target) && volume == target
      invariant forall k :: 0 <= k < |levels| ==> levels[k] == FadeLevel(target, k)
      invariant !done ==> |levels| < FadeSteps(target)
      invariant track.State() == if levels == [] then old(track.State()) else old(track.State()).(volume := levels[|levels| - 1])
      decreases target + 5 - volume, if done then 0 else 1
    {
      volume := volume + 5;
      if volume >= target {
        volume := target;
        done := true;
      }
      levels := levels + [volume];
      track.SetVolume(volume);
    }
  }
}
