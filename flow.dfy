/**
 * The controller's audio steps as functions on the parts they touch: the
 * generator's state, the tracks and the countdown counters. The class in
 * module Experience is proved against these, field by field.
 */
module Flow {
  import opened Wrappers
  import opened Timing
  import opened Platform
  import opened Media
  import opened Sounds
  import opened Playback

  /** A freshly created track: paused at the start, preload 'auto'. */
  function Loaded(volume: Volume): TrackState
  {
    TrackState(true, 0, volume, false, true)
  }

  /** Volume the celebration song is loaded with: 0.8 on mobile, 0.7 on desktop. */
  function LoadVolume(isMobile: bool): Volume
  {
    if isMobile then 80 else 70
  }

  /** The generator part of `stopAllAudio()`: the heartbeat loop, then every sound. */
  function Silenced(s: SoundState): (r: SoundState)
    ensures !r.heartbeat && r.interval.None? && r.oscillators == {}
    ensures r.context == s.context && r.initialized == s.initialized
    ensures forall h, env :: HeartbeatTicked(r, h, env) == r
    ensures Sounds.Inv(s) ==> Sounds.Inv(r)
  {
    AllStopped(HeartbeatStopped(s))
  }

  /**
   * The generator part of `stopAllAudioExceptCelebration()`: the heartbeat
   * loop, then every sound when a context exists. Its extra
   * `forceStopAllSounds()` guarded by the heartbeat flag never runs, as the
   * flag was just cleared.
   */
  function ExceptCelebrationSilenced(s: SoundState): (r: SoundState)
    ensures !r.heartbeat && r.interval.None?
    ensures s.context != NoContext ==> r.oscillators == {}
    ensures s.context == NoContext ==> r.oscillators == s.oscillators
    ensures r.context == s.context && r.initialized == s.initialized
    ensures Sounds.Inv(s) ==> Sounds.Inv(r)
  {
    var s1 := HeartbeatStopped(s);
    if s1.context != NoContext then AllStopped(s1) else s1
  }

  /** The pre-authorisation throws exactly when it initialises a context that stays suspended. */
  predicate PreauthorizeRejected(s: SoundState, env: AudioEnv)
  {
    !s.initialized && Initialized(s, env).context == Suspended && !env.resumes
  }

  /** The generator after the pre-authorisation's own `initialize()` and `resume()`. */
  function PreauthorizedSound(s: SoundState, env: AudioEnv): (r: SoundState)
    ensures s.initialized ==> r == s
    ensures !s.initialized ==> (PreauthorizeRejected(s, env) <==> r.context == Suspended)
    ensures Sounds.Inv(s) ==> Sounds.Inv(r)
  {
    if s.initialized then s
    else
      var s1 := Initialized(s, env);
      if s1.context == Suspended then Resumed(s1, env.resumes) else s1
  }

  /** Whether an event reaches the unlock handler (listeners attached) and passes its guard. */
  predicate UnlockActs(listening: bool, unlocked: bool, t: Target)
  {
    listening && !unlocked && IsValidTarget(t)
  }

  /** The unlock handler's `initialize()`/`resume()` step throws: the context stays suspended. */
  predicate UnlockRejected(s: SoundState, env: AudioEnv)
  {
    (if !s.initialized then Initialized(s, env) else s).context == Suspended && !env.resumes
  }

  /** The generator after the unlock handler's `initialize()` and `resume()`. */
  function UnlockedSound(s: SoundState, env: AudioEnv): (r: SoundState)
    ensures UnlockRejected(s, env) <==> r.context == Suspended
    ensures Sounds.Inv(s) ==> Sounds.Inv(r)
  {
    Resumed(if !s.initialized then Initialized(s, env) else s, env.resumes)
  }

  /**
   * The generator after `initializeAudio()`: initialised, a suspended
   * context resumed (a rejection ends the call), the heartbeat started if
   * the context runs.
   */
  function InitializedSound(s: SoundState, env: AudioEnv): (r: SoundState)
    ensures Sounds.Inv(s) && r.context == Running ==> r.heartbeat
    ensures RetryArmed(s, env) <==> r.context == NoContext
    ensures Sounds.Inv(s) ==> Sounds.Inv(r)
  {
    var s1 := Initialized(s, env);
    if s1.context == Suspended && !env.resumes then s1
    else
      var s2 := Resumed(s1, env.resumes);
      if s2.context == Running then HeartbeatStarted(s2, env) else s2
  }

  /** `initializeAudio()` arms the heartbeat retry when, without a rejection, no context runs. */
  predicate RetryArmed(s: SoundState, env: AudioEnv)
  {
    var s1 := Initialized(s, env);
    !(s1.context == Suspended && !env.resumes) && Resumed(s1, env.resumes).context != Running
  }

  /**
   * Whether the Start click's pre-authorisation succeeds: only on mobile,
   * only once, and not when its resume is rejected.
   */
  predicate StartPreauthorizes(s: SoundState, isMobile: bool, already: bool, env: AudioEnv)
  {
    isMobile && !already && !PreauthorizeRejected(s, env)
  }

  /**
   * The generator after the first half of the Start click: everything
   * stopped, then the mobile pre-authorisation's initialisation when it runs.
   */
  function SessionSound(s: SoundState, preauthorizing: bool, env: AudioEnv): (r: SoundState)
    ensures !preauthorizing ==> !r.heartbeat && r.interval.None? && r.oscillators == {}
    ensures preauthorizing ==> (PreauthorizeRejected(s, env) <==> !s.initialized && r.context == Suspended)
    ensures Sounds.Inv(s) ==> Sounds.Inv(r)
  {
    var s1 := Silenced(s);
    assert PreauthorizeRejected(s1, env) == PreauthorizeRejected(s, env);
    if preauthorizing then PreauthorizedSound(s1, env) else s1
  }

  /** The generator after the Start click: the session opened, then `initializeAudio()`. */
  function StartedSound(s: SoundState, isMobile: bool, already: bool, env: AudioEnv): (r: SoundState)
    ensures Sounds.Inv(s) ==> Sounds.Inv(r)
  {
    InitializedSound(SessionSound(s, isMobile && !already, env), env)
  }

  /** Whether the Start click arms the heartbeat retry. */
  predicate StartArmsRetry(s: SoundState, isMobile: bool, already: bool, env: AudioEnv)
  {
    RetryArmed(SessionSound(s, isMobile && !already, env), env)
  }

  /**
   * The retry is armed only when the Start click leaves no audio context,
   * and a Start click that leaves the context running leaves the heartbeat on.
   */
  lemma {:induction false} StartRetryOnlyWithoutContext(s: SoundState, isMobile: bool, already: bool, env: AudioEnv)
    requires Sounds.Inv(s)
    ensures StartArmsRetry(s, isMobile, already, env) <==> StartedSound(s, isMobile, already, env).context == NoContext
    ensures StartedSound(s, isMobile, already, env).context == Running ==> StartedSound(s, isMobile, already, env).heartbeat
  {
    var s2 := SessionSound(s, isMobile && !already, env);
    assert Sounds.Inv(s2);
    assert RetryArmed(s2, env) <==> InitializedSound(s2, env).context == NoContext;
  }

  /** The tick of a running countdown; None when its interval is cleared. */
  function TickOf(count: Option<int>, final: bool): Option<Tick>
  {
    if count.None? then None else Some(TickAt(count.value, !final))
  }

  /** The count after a tick: decremented, or the interval cleared once the tick fires. */
  function CountAfter(count: Option<int>, final: bool): (c: Option<int>)
    ensures count.None? ==> c.None?
    ensures count.Some? ==> (c.None? <==> TickOf(count, final).value.fires)
    ensures c.Some? ==> c.value == count.value - 1
  {
    match TickOf(count, final)
    case None => None
    case Some(t) => if t.fires then None else Some(count.value - 1)
  }

  /** The ticks a countdown from `count` produces over `n` interval periods. */
  function CountdownRun(count: Option<int>, final: bool, n: nat): seq<Tick>
    decreases n
  {
    if n == 0 || count.None? then []
    else [TickOf(count, final).value] + CountdownRun(CountAfter(count, final), final, n - 1)
  }

  /**
   * Ticking the stored count reproduces the countdown specification: from
   * `c` the interval yields exactly the ticks of `Ticks`, then is cleared.
   */
  lemma {:induction false} CountdownRunIsTicks(c: int, final: bool, extra: nat)
    requires c >= 1
    ensures CountdownRun(Some(c), final, c + extra) == Ticks(c, !final)
    decreases c
  {
    var t := TickAt(c, !final);
    if c - 1 <= 0 {
      assert CountAfter(Some(c), final) == None;
      assert CountdownRun(None, final, c + extra - 1) == [];
    } else {
      assert CountAfter(Some(c), final) == Some(c - 1);
      CountdownRunIsTicks(c - 1, final, extra);
      assert c + extra - 1 == (c - 1) + extra;
    }
  }

  /**
   * The heartbeat check of `startMysteryPhase()`: a suspended context is
   * resumed and the loop started if it is off; a running context gets the
   * loop started if it is off.
   */
  function MysteryHeartbeat(s: SoundState, env: AudioEnv): (r: SoundState)
    ensures Sounds.Inv(s) && s.context != NoContext && env.resumes ==> r.heartbeat && r.context == Running
    ensures s.context == NoContext || (s.context == Suspended && !env.resumes) ==> r == s
    ensures s.heartbeat && s.context == Running ==> r == s
    ensures Sounds.Inv(s) ==> Sounds.Inv(r)
  {
    match s.context
    case NoContext => s
    case Suspended =>
      if env.resumes then (var s1 := Resumed(s, true); if !s1.heartbeat then HeartbeatStarted(s1, env) else s1) else s
    case Running => if !s.heartbeat then HeartbeatStarted(s, env) else s
  }

  /**
   * The generator at the celebration checkpoint: the heartbeat loop and every
   * sound stopped, then `stopAllAudioExceptCelebration()`.
   */
  function CheckpointSound(s: SoundState): (r: SoundState)
    ensures !r.heartbeat && r.interval.None? && r.oscillators == {}
    ensures r.context == s.context && r.initialized == s.initialized
    ensures Sounds.Inv(s) ==> Sounds.Inv(r)
  {
    ExceptCelebrationSilenced(Silenced(s))
  }

  /**
   * Whether the climax watch keeps running after a tick: in mystery (and in
   * the never-assigned 'countdown') it waits; in buildup it keeps watching a
   * cue that already plays; anywhere else it clears itself.
   */
  predicate WatchGoesOn(p: Phase, climaxPaused: bool)
  {
    p == Mystery || p == Countdown || (p == Buildup && !climaxPaused)
  }
}
