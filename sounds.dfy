/**
 * The bookkeeping of the synthetic-sound generator: the audio context's
 * state, the initialised flag, the heartbeat loop and its interval handle,
 * and the set of oscillators that are still sounding. The Web Audio node
 * graph (filters, gains, envelopes) is not part of this model; a tone is
 * an oscillator id added to the active set plus the schedule entry that
 * says when and at what pitch it sounds.
 */
module Sounds {
  import opened Wrappers

  /** `audioContext`: null, or a context whose `state` is 'suspended' or 'running'. */
  datatype ContextState = NoContext | Suspended | Running

  /**
   * What the browser answers during one call: whether `new AudioContext()`
   * succeeds, whether a new context starts suspended (autoplay policy), and
   * whether `resume()` resolves.
   */
  datatype AudioEnv = AudioEnv(creates: bool, startsSuspended: bool, resumes: bool)

  /** A pitch in hundredths of a hertz; sparkles draw theirs at random from [low, low + span). */
  datatype Pitch = Fixed(centiHz: nat) | Random(lowCentiHz: nat, spanCentiHz: nat)

  /** One scheduled tone: offset from the call, pitch, length. */
  datatype Tone = Tone(atMs: nat, pitch: Pitch, lengthMs: nat)

  /**
   * A snapshot of the generator. `timers` are the interval handles the
   * browser still runs; `stopped` are the oscillators `stop()` was called on.
   */
  datatype SoundState = SoundState(
    context: ContextState,
    initialized: bool,
    interval: Option<nat>,
    heartbeat: bool,
    oscillators: set<nat>,
    timers: set<nat>,
    nextTimer: nat,
    nextOscillator: nat,
    stopped: set<nat>)

  /** The freshly constructed generator (browser interval handles are positive). */
  function Fresh(): SoundState
  {
    SoundState(NoContext, false, None, false, {}, {}, 1, 0, {})
  }

  /** What the generator keeps true between calls. */
  ghost predicate Inv(s: SoundState)
  {
    && (s.initialized ==> s.context != NoContext)
    && (s.interval.Some? ==> s.heartbeat)
    && (s.heartbeat ==> s.context != NoContext)
    && (s.interval.Some? ==> s.interval.value in s.timers)
    && (forall t :: t in s.timers ==> t < s.nextTimer)
    && (forall o :: o in s.oscillators ==> o < s.nextOscillator)
    && (forall o :: o in s.stopped ==> o < s.nextOscillator)
  }

  lemma FreshInv()
    ensures Inv(Fresh())
  {
  }

  /**
   * `initialize()`: nothing once initialised; otherwise a new context, resumed
   * when it starts suspended. A throw (no context support, a rejected resume)
   * is caught and leaves the flag false.
   */
  function Initialized(s: SoundState, env: AudioEnv): (r: SoundState)
    ensures s.initialized ==> r == s
    ensures r.initialized <==> s.initialized || (env.creates && (!env.startsSuspended || env.resumes))
    ensures !s.initialized && r.initialized ==> r.context == Running
    ensures !env.creates ==> r == s
    ensures r.(context := s.context, initialized := s.initialized) == s
    ensures Inv(s) ==> Inv(r)
  {
    if s.initialized || !env.creates then s
    else if !env.startsSuspended || env.resumes then s.(context := Running, initialized := true)
    else s.(context := Suspended, initialized := false)
  }

  /** `audioContext.resume()` on a suspended context; a rejection changes nothing. */
  function Resumed(s: SoundState, resolves: bool): (r: SoundState)
    ensures r.context == (if s.context == Suspended && resolves then Running else s.context)
    ensures r.(context := s.context) == s
    ensures Inv(s) ==> Inv(r)
  {
    if s.context == Suspended && resolves then s.(context := Running) else s
  }

  /** `ensureAudioContextRunning()`: initialise when there is no context, then resume a suspended one. */
  function EnsuredRunning(s: SoundState, env: AudioEnv): (r: SoundState)
    ensures s.context == Running ==> r == s
    ensures s.context != NoContext ==> r.initialized == s.initialized
    ensures Inv(s) ==> (r.context == NoContext <==> s.context == NoContext && !env.creates)
    ensures r.context == Suspended ==> !env.resumes
    ensures Inv(s) && env.resumes && r.context != NoContext ==> r.context == Running
    ensures r.(context := s.context, initialized := s.initialized) == s
    ensures Inv(s) ==> Inv(r)
  {
    var a := if s.context == NoContext then Initialized(s, env) else s;
    assert Inv(s) && env.resumes && a.context != NoContext ==> a.context != Suspended || a == s;
    if a.context == Suspended then Resumed(a, env.resumes) else a
  }

  /** The add half of every `create*`: with a context, a new oscillator joins the active set. */
  function ToneAdded(s: SoundState): (r: SoundState)
    ensures s.context == NoContext ==> r == s
    ensures s.context != NoContext ==> r.oscillators == s.oscillators + {s.nextOscillator}
    ensures Inv(s) && s.context != NoContext ==> s.nextOscillator !in s.oscillators && |r.oscillators| == |s.oscillators| + 1
    ensures r.(oscillators := s.oscillators, nextOscillator := s.nextOscillator) == s
    ensures Inv(s) ==> Inv(r)
  {
    if s.context == NoContext then s
    else s.(oscillators := s.oscillators + {s.nextOscillator}, nextOscillator := s.nextOscillator + 1)
  }

  /** The `onended` half: the finished oscillator leaves the active set. */
  function EndTone(s: SoundState, id: nat): (r: SoundState)
    ensures id !in r.oscillators
    ensures r.oscillators + (s.oscillators * {id}) == s.oscillators
    ensures r.(oscillators := s.oscillators) == s
    ensures Inv(s) ==> Inv(r)
  {
    s.(oscillators := s.oscillators - {id})
  }

  /** A tone that has ended leaves the active set exactly as it found it. */
  lemma ToneRoundTrip(s: SoundState)
    requires Inv(s) && s.context != NoContext
    ensures EndTone(ToneAdded(s), s.nextOscillator).oscillators == s.oscillators
  {
    assert s.nextOscillator !in s.oscillators;
  }

  /** The two sounds of one beat ("lub" at 80 Hz, "dub" at 60 Hz 150 ms later). */
  function HeartbeatTones(): (r: seq<Tone>)
    ensures |r| == 2 && r[0].atMs == 0 && r[1].atMs == r[0].atMs + 150
    ensures r[0].pitch == Fixed(8000) && r[1].pitch == Fixed(6000)
  {
    [Tone(0, Fixed(8000), 100), Tone(150, Fixed(6000), 80)]
  }

  /** `generateHeartbeat()`: make sure the context runs, then two tones if there is a context. */
  function Beaten(s: SoundState, env: AudioEnv): (r: SoundState)
    ensures r.heartbeat == s.heartbeat && r.interval == s.interval && r.timers == s.timers && r.stopped == s.stopped
    ensures s.oscillators <= r.oscillators
    ensures Inv(s) && r.context != NoContext ==> |r.oscillators| == |s.oscillators| + 2
    ensures r.context == NoContext ==> r.oscillators == s.oscillators
    ensures s.context == Running ==> r.context == Running
    ensures Inv(s) ==> Inv(r)
  {
    var a := EnsuredRunning(s, env);
    if a.context == NoContext then a else ToneAdded(ToneAdded(a))
  }

  /**
   * `startHeartbeatLoop()`: nothing without a context; otherwise the flag is
   * set before the first beat and a new interval is armed. A handle already
   * held is overwritten, not cleared.
   */
  function HeartbeatStarted(s: SoundState, env: AudioEnv): (r: SoundState)
    ensures s.context == NoContext ==> r == s
    ensures s.context == Running ==> r.context == Running
    ensures s.context != NoContext ==> r.heartbeat && r.interval.Some? && r.timers == s.timers + {r.interval.value}
    ensures Inv(s) && s.context != NoContext ==> r.interval.value !in s.timers && |r.oscillators| == |s.oscillators| + 2
    ensures Inv(s) ==> Inv(r)
  {
    if s.context == NoContext then s
    else
      var b := Beaten(s.(heartbeat := true), env);
      b.(interval := Some(b.nextTimer), timers := b.timers + {b.nextTimer}, nextTimer := b.nextTimer + 1)
  }

  /** One firing of interval `h`: a beat only while the loop flag is on. */
  function HeartbeatTicked(s: SoundState, h: nat, env: AudioEnv): (r: SoundState)
    ensures r.heartbeat == s.heartbeat && r.interval == s.interval && r.timers == s.timers
    ensures !(h in s.timers && s.heartbeat) ==> r == s
    ensures Inv(s) && h in s.timers && s.heartbeat ==> |r.oscillators| == |s.oscillators| + 2
    ensures Inv(s) ==> Inv(r)
  {
    if h in s.timers && s.heartbeat then Beaten(s, env) else s
  }

  /** `stopHeartbeatLoop()`: the flag off, the held interval cleared and forgotten. */
  function HeartbeatStopped(s: SoundState): (r: SoundState)
    ensures !r.heartbeat && r.interval.None?
    ensures r.timers == if s.interval.Some? then s.timers - {s.interval.value} else s.timers
    ensures r.(heartbeat := s.heartbeat, interval := s.interval, timers := s.timers) == s
    ensures forall h, env :: HeartbeatTicked(r, h, env) == r
    ensures Inv(s) ==> Inv(r)
  {
    var t := if s.interval.Some? then s.timers - {s.interval.value} else s.timers;
    s.(heartbeat := false, interval := None, timers := t)
  }

  /** `forceStopAllSounds()`: `stop()` on every active oscillator, then the set is emptied. */
  function ForceStopped(s: SoundState): (r: SoundState)
    ensures r.oscillators == {}
    ensures r.stopped == s.stopped + s.oscillators
    ensures r.(oscillators := s.oscillators, stopped := s.stopped) == s
    ensures Inv(s) ==> Inv(r)
  {
    s.(oscillators := {}, stopped := s.stopped + s.oscillators)
  }

  /** `stopAllSounds()`. */
  function AllStopped(s: SoundState): (r: SoundState)
    ensures !r.heartbeat && r.interval.None? && r.oscillators == {}
    ensures r.context == s.context && r.initialized == s.initialized
    ensures s.oscillators <= r.stopped
    ensures forall h, env :: HeartbeatTicked(r, h, env) == r
    ensures Inv(s) ==> Inv(r)
  {
    ForceStopped(HeartbeatStopped(s))
  }

  /** Stopping twice is stopping once. */
  lemma StopsIdempotent(s: SoundState)
    ensures HeartbeatStopped(HeartbeatStopped(s)) == HeartbeatStopped(s)
    ensures ForceStopped(ForceStopped(s)) == ForceStopped(s)
    ensures AllStopped(AllStopped(s)) == AllStopped(s)
  {
  }

  /**
   * A second start while the loop runs leaks the first interval: a stop
   * clears only the newer handle, the older one keeps firing silently, and
   * once the loop is started again it beats alongside the new one.
   */
  lemma SecondStartLeaks(s: SoundState, env1: AudioEnv, env2: AudioEnv, env3: AudioEnv)
    requires Inv(s) && s.interval.Some?
    ensures var t := HeartbeatStarted(s, env1);
      var u := HeartbeatStopped(t);
      var w := HeartbeatStarted(u, env2);
      && s.interval.value in u.timers
      && u.interval.None?
      && HeartbeatTicked(u, s.interval.value, env3) == u
      && w.interval != s.interval
      && |HeartbeatTicked(w, s.interval.value, env3).oscillators| == |w.oscillators| + 2
  {
    var h := s.interval.value;
    var t := HeartbeatStarted(s, env1);
    assert h in t.timers && t.interval.value != h;
    var u := HeartbeatStopped(t);
    assert h in u.timers;
    var w := HeartbeatStarted(u, env2);
    assert h in w.timers && w.heartbeat && Inv(w);
  }

  /** `generateSuspenseSound()`'s tones: five, 500 ms apart, rising from 40 Hz to 60 Hz. */
  function SuspenseTones(): (r: seq<Tone>)
    ensures |r| == 5 && r[0].atMs == 0 && r[4].atMs == 2000
    ensures forall i :: 0 <= i < |r| ==> r[i].pitch.Fixed? && 4000 <= r[i].pitch.centiHz <= 6000 && r[i].lengthMs == 800
    ensures forall i, j :: 0 <= i < j < |r| ==> r[i].atMs < r[j].atMs && r[i].pitch.centiHz < r[j].pitch.centiHz
  {
    seq(5, i requires 0 <= i < 5 => Tone(500 * i, Fixed(4000 + 500 * i), 800))
  }

  /** The loop of `generateSuspenseSound()` that arms one timeout per tone. */
  method SuspenseSchedule() returns (tones: seq<Tone>)
    ensures tones == SuspenseTones()
  {
    tones := [];
    for i := 0 to 5
      invariant tones == SuspenseTones()[..i]
    {
      tones := tones + [Tone(500 * i, Fixed(4000 + 500 * i), 800)];
    }
  }

  /** The four notes of the celebration chord (C4, E4, G4, C5), in hundredths of a hertz. */
  const ChordCentiHz: seq<nat> := [26163, 32963, 39200, 52325]

  /**
   * `generateCelebrationSound()`'s tones: the chord notes 100 ms apart,
   * then ten sparkles from 1000 ms, 100 ms apart, each at a random pitch in
   * [800 Hz, 1200 Hz).
   */
  function CelebrationTones(): (r: seq<Tone>)
    ensures |r| == 14
    ensures forall i :: 0 <= i < 4 ==> r[i].pitch == Fixed(ChordCentiHz[i]) && r[i].lengthMs == 500
    ensures forall i, j :: 0 <= i < j < 4 ==> r[i].pitch.centiHz < r[j].pitch.centiHz
    ensures forall i :: 4 <= i < 14 ==> r[i].pitch == Random(80000, 40000) && r[i].lengthMs == 100
    ensures forall i, j :: 0 <= i < j < |r| ==> r[i].atMs < r[j].atMs
    ensures r[3].atMs + r[3].lengthMs <= r[4].atMs
  {
    seq(4, i requires 0 <= i < 4 => Tone(100 * i, Fixed(ChordCentiHz[i]), 500))
      + seq(10, i requires 0 <= i < 10 => Tone(1000 + 100 * i, Random(80000, 40000), 100))
  }

  /** The two loops of `generateCelebrationSound()`: the chord, then the sparkles. */
  method CelebrationSchedule() returns (tones: seq<Tone>)
    ensures tones == CelebrationTones()
  {
    tones := [];
    for i := 0 to |ChordCentiHz|
      invariant tones == CelebrationTones()[..i]
    {
      tones := tones + [Tone(100 * i, Fixed(ChordCentiHz[i]), 500)];
    }
    for i := 0 to 10
      invariant tones == CelebrationTones()[..4 + i]
    {
      tones := tones + [Tone(1000 + 100 * i, Random(80000, 40000), 100)];
    }
  }

  class SoundGenerator {
    var context: ContextState
    var isInitialized: bool
    var heartbeatInterval: Option<nat>
    var isHeartbeatPlaying: bool
    var activeOscillators: set<nat>
    var liveTimers: set<nat>
    var nextTimer: nat
    var nextOscillator: nat
    var stopped: set<nat>

    function State(): SoundState
      reads this
    {
      SoundState(context, isInitialized, heartbeatInterval, isHeartbeatPlaying, activeOscillators,
                 liveTimers, nextTimer, nextOscillator, stopped)
    }

    ghost predicate Valid()
      reads this
    {
      Inv(State())
    }

    constructor ()
      ensures State() == Fresh() && Valid()
    {
      context := NoContext;
      isInitialized := false;
      heartbeatInterval := None;
      isHeartbeatPlaying := false;
      activeOscillators := {};
      liveTimers := {};
      nextTimer := 1;
      nextOscillator := 0;
      stopped := {};
    }

    method Initialize(env: AudioEnv)
      requires Valid()
      modifies this
      ensures State() == Initialized(old(State()), env) && Valid()
    {
      if isInitialized {
        return;
      }
      if !env.creates {
        return;
      }
      if env.startsSuspended {
        context := Suspended;
        if !env.resumes {
          return;
        }
        context := Running;
      } else {
        context := Running;
      }
      isInitialized := true;
    }

    /** `audioContext.resume()`; reports whether it rejected. */
    method Resume(resolves: bool) returns (rejected: bool)
      requires Valid()
      modifies this
      ensures rejected == (context == Suspended)
      ensures State() == Resumed(old(State()), resolves) && Valid()
    {
      if context == Suspended && resolves {
        context := Running;
      }
      rejected := context == Suspended;
    }

    method EnsureAudioContextRunning(env: AudioEnv)
      requires Valid()
      modifies this
      ensures State() == EnsuredRunning(old(State()), env) && Valid()
    {
      if context == NoContext {
        Initialize(env);
      }
      if context == Suspended {
        var _ := Resume(env.resumes);
      }
    }

    /** The bookkeeping of `createHeartbeatSound` / `createSuspenseTone` / `createCelebrationNote` / `createSparkleSound`. */
    method CreateTone() returns (id: Option<nat>)
      requires Valid()
      modifies this
      ensures id.Some? <==> old(context) != NoContext
      ensures id.Some? ==> id.value !in old(activeOscillators) && id.value in activeOscillators
      ensures State() == ToneAdded(old(State())) && Valid()
    {
      if context == NoContext {
        return None;
      }
      id := Some(nextOscillator);
      activeOscillators := activeOscillators + {nextOscillator};
      nextOscillator := nextOscillator + 1;
    }

    /** An oscillator's `onended`. */
    method OscillatorEnded(id: nat)
      requires Valid()
      modifies this
      ensures State() == EndTone(old(State()), id) && Valid()
    {
      activeOscillators := activeOscillators - {id};
    }

    method GenerateHeartbeat(env: AudioEnv) returns (tones: seq<Tone>)
      requires Valid()
      modifies this
      ensures tones == if context == NoContext then [] else HeartbeatTones()
      ensures State() == Beaten(old(State()), env) && Valid()
    {
      EnsureAudioContextRunning(env);
      if context == NoContext {
        return [];
      }
      var _ := CreateTone();
      var _ := CreateTone();
      tones := HeartbeatTones();
    }

    /**
     * `generateSuspenseSound()`: the tones are returned as a schedule; each
     * one's timeout later calls `CreateTone`.
     */
    method GenerateSuspenseSound(env: AudioEnv) returns (tones: seq<Tone>)
      requires Valid()
      modifies this
      ensures context == NoContext ==> tones == []
      ensures context != NoContext ==> tones == SuspenseTones()
      ensures State() == EnsuredRunning(old(State()), env) && Valid()
    {
      EnsureAudioContextRunning(env);
      if context == NoContext {
        return [];
      }
      tones := SuspenseSchedule();
    }

    /** `generateCelebrationSound()`, scheduled the same way. */
    method GenerateCelebrationSound(env: AudioEnv) returns (tones: seq<Tone>)
      requires Valid()
      modifies this
      ensures context == NoContext ==> tones == []
      ensures context != NoContext ==> tones == CelebrationTones()
      ensures State() == EnsuredRunning(old(State()), env) && Valid()
    {
      EnsureAudioContextRunning(env);
      if context == NoContext {
        return [];
      }
      tones := CelebrationSchedule();
    }

    /** `startHeartbeatLoop()`; the handle of the armed interval is returned. */
    method StartHeartbeatLoop(env: AudioEnv) returns (handle: Option<nat>)
      requires Valid()
      modifies this
      ensures handle == heartbeatInterval
      ensures State() == HeartbeatStarted(old(State()), env) && Valid()
    {
      if context == NoContext {
        return heartbeatInterval;
      }
      isHeartbeatPlaying := true;
      var _ := GenerateHeartbeat(env);
      heartbeatInterval := Some(nextTimer);
      liveTimers := liveTimers + {nextTimer};
      nextTimer := nextTimer + 1;
      handle := heartbeatInterval;
    }

    /** The callback of interval `h`, when the browser fires it. */
    method HeartbeatTick(h: nat, env: AudioEnv) returns (beat: bool)
      requires Valid()
      modifies this
      ensures beat == (h in old(liveTimers) && old(isHeartbeatPlaying))
      ensures State() == HeartbeatTicked(old(State()), h, env) && Valid()
    {
      beat := h in liveTimers && isHeartbeatPlaying;
      if beat {
        var _ := GenerateHeartbeat(env);
      }
    }

    method StopHeartbeatLoop()
      requires Valid()
      modifies this
      ensures State() == HeartbeatStopped(old(State())) && Valid()
    {
      isHeartbeatPlaying := false;
      if heartbeatInterval.Some? {
        liveTimers := liveTimers - {heartbeatInterval.value};
        heartbeatInterval := None;
      }
    }

    method ForceStopAllSounds()
      requires Valid()
      modifies this
      ensures State() == ForceStopped(old(State())) && Valid()
    {
      var pending := activeOscillators;
      while pending != {}
        invariant pending <= activeOscillators
        invariant stopped + pending == old(stopped) + old(activeOscillators)
        invariant State() == old(State()).(stopped := stopped)
        invariant Valid()
        decreases pending
      {
        var o :| o in pending;
        stopped := stopped + {o};
        pending := pending - {o};
      }
      activeOscillators := {};
    }

    method StopAllSounds()
      requires Valid()
      modifies this
      ensures State() == AllStopped(old(State())) && Valid()
    {
      StopHeartbeatLoop();
      ForceStopAllSounds();
    }
  }
}
