/**
 * The show's controller, `RevealExperience`: its flags, its phase tag,
 * the two music tracks and the sound generator it owns. Timers are not run
 * here: a method that arms one returns the `Schedule` (or the duel's cue
 * offsets), and each interval or timeout callback that touches audio, the
 * phase or a countdown is a method of its own that the environment calls.
 * Every method names the fields it may change and states each new value.
 */
module Experience {
  import opened Wrappers
  import opened Timing
  import opened Platform
  import opened Media
  import opened Sounds
  import opened Playback
  import opened Flow
  import DuelScreen = Duel

  class RevealExperience {
    const sound: SoundGenerator
    var phase: Phase
    var isMobile: bool
    var audioUnlocked: bool
    var experienceStarted: bool
    var allAudiosPreAuthorized: bool
    var celebrationMusicAllowed: bool
    var unlockListening: bool      // the document-level unlock listeners are attached
    var landingCount: Option<int>  // the landing countdown's interval and its count
    var finalCount: Option<int>    // the buildup's final countdown
    var climaxWatch: bool          // the 1 s interval that watches for a silent buildup
    var heartbeatRetry: bool       // the 1 s timeout that retries the heartbeat
    var musicButtons: set<nat>     // manual celebration-music buttons on the page
    var nextButton: nat
    var climax: TrackState
    var celebration: TrackState

    /** The generator's invariant, and every button id on the page is below the next one handed out. */
    ghost predicate Valid()
      reads sound, this`musicButtons, this`nextButton
    {
      && sound.Valid()
      && forall x :: x in musicButtons ==> x < nextButton
    }

    /**
     * The constructor with the page's user agent, window width and whether
     * the enter button exists: `isMobile` as bindEvents leaves it, both
     * tracks loaded with that value's volumes, the unlock listeners attached
     * on mobile.
     */
    constructor (ua: string, innerWidth: int, enterButtonFound: bool)
      ensures phase == Landing && isMobile == ResolveIsMobile(ua, innerWidth, enterButtonFound)
      ensures !audioUnlocked && !experienceStarted && !allAudiosPreAuthorized && !celebrationMusicAllowed
      ensures unlockListening == isMobile
      ensures landingCount.None? && finalCount.None? && !climaxWatch && !heartbeatRetry
      ensures musicButtons == {} && nextButton == 0
      ensures climax == Loaded(ClimaxVolume(isMobile)) && celebration == Loaded(LoadVolume(isMobile))
      ensures sound.State() == Fresh() && Valid()
    {
      phase := Landing;
      sound := new SoundGenerator();
      var mobile := DetectMobile(ua, innerWidth);
      if enterButtonFound {
        mobile := UserAgentIsMobile(ua);
      }
      isMobile := mobile;
      audioUnlocked := false;
      experienceStarted := false;
      allAudiosPreAuthorized := false;
      celebrationMusicAllowed := false;
      celebration := Loaded(LoadVolume(mobile));
      climax := Loaded(ClimaxVolume(mobile));
      unlockListening := mobile;
      landingCount := None;
      finalCount := None;
      climaxWatch := false;
      heartbeatRetry := false;
      musicButtons := {};
      nextButton := 0;
    }

    /** `stopAllAudio()`: each track stopped if playing, the heartbeat and every oscillator stopped. */
    method StopAllAudio()
      requires Valid()
      modifies this`climax, this`celebration, sound
      ensures climax == old(climax).StoppedIfPlaying() && celebration == old(celebration).StoppedIfPlaying()
      ensures sound.State() == Silenced(old(sound.State())) && Valid()
    {
      climax := climax.StoppedIfPlaying();
      celebration := celebration.StoppedIfPlaying();
      sound.StopHeartbeatLoop();
      sound.StopAllSounds();
    }

    /** `stopInappropriateAudio()`: only the climax track, only in the phases that forbid it. */
    method StopInappropriateAudio()
      modifies this`climax
      ensures climax == if ForbidsClimax(phase) then old(climax).StoppedIfPlaying() else old(climax)
    {
      if phase == Mystery || phase == Countdown {
        if !climax.paused {
          climax := climax.Stopped();
        }
      }
      if phase == Duel || phase == Reveal || phase == Celebration {
        if !climax.paused {
          climax := climax.Stopped();
        }
      }
    }

    /**
     * `stopAllAudioExceptCelebration()`: despite its name it also stops a
     * celebration song that is playing.
     */
    method StopAllAudioExceptCelebration()
      requires Valid()
      modifies this`climax, this`celebration, sound
      ensures climax == old(climax).Stopped() && celebration == old(celebration).StoppedIfPlaying()
      ensures sound.State() == ExceptCelebrationSilenced(old(sound.State())) && Valid()
    {
      sound.StopHeartbeatLoop();
      climax := climax.Stopped();
      if sound.context != NoContext {
        sound.StopAllSounds();
      }
      if !celebration.paused {
        celebration := celebration.Stopped();
      }
    }

    /** The generator part of `preAuthorizeMobileAudio()`; reports the throw of a rejected resume. */
    method PreauthorizeSound(env: AudioEnv) returns (rejected: bool)
      requires Valid()
      modifies sound
      ensures rejected == PreauthorizeRejected(old(sound.State()), env)
      ensures sound.State() == PreauthorizedSound(old(sound.State()), env) && Valid()
    {
      rejected := false;
      if !sound.isInitialized {
        sound.Initialize(env);
        if sound.context == Suspended {
          rejected := sound.Resume(env.resumes);
        }
      }
    }

    /**
     * `preAuthorizeMobileAudio()`: once only. A rejected resume throws, which
     * leaves the tracks alone and the flag false; otherwise both tracks get
     * preload 'auto' and the volumes 0.8 and 0.7.
     */
    method PreAuthorizeMobileAudio(env: AudioEnv)
      requires Valid()
      modifies this`climax, this`celebration, this`allAudiosPreAuthorized, sound
      ensures allAudiosPreAuthorized <==> old(allAudiosPreAuthorized) || !PreauthorizeRejected(old(sound.State()), env)
      ensures sound.State() == if old(allAudiosPreAuthorized) then old(sound.State()) else PreauthorizedSound(old(sound.State()), env)
      ensures !old(allAudiosPreAuthorized) && allAudiosPreAuthorized ==>
        climax == old(climax).(preloadAuto := true, volume := 80) && celebration == old(celebration).(preloadAuto := true, volume := 70)
      ensures old(allAudiosPreAuthorized) || !allAudiosPreAuthorized ==> climax == old(climax) && celebration == old(celebration)
      ensures Valid()
    {
      if allAudiosPreAuthorized {
        return;
      }
      var rejected := PreauthorizeSound(env);
      if rejected {
        return;
      }
      climax := climax.(preloadAuto := true, volume := 80);
      celebration := celebration.(preloadAuto := true, volume := 70);
      allAudiosPreAuthorized := true;
    }

    /** One track's unlock probe inside the handler. */
    static method ProbeTrack(track: TrackState, resolves: bool) returns (r: TrackState)
      ensures r == Probe(track, resolves)
    {
      r := track.(volume := 0, muted := true);
      if resolves {
        r := r.(paused := false);
        r := r.Stopped().(muted := false);
      }
    }

    /** The generator part of the unlock handler; reports a context still suspended. */
    method UnlockSound(env: AudioEnv) returns (rejected: bool)
      requires Valid()
      modifies sound
      ensures rejected == UnlockRejected(old(sound.State()), env)
      ensures sound.State() == UnlockedSound(old(sound.State()), env) && Valid()
    {
      if !sound.isInitialized {
        sound.Initialize(env);
      }
      rejected := false;
      if sound.context == Suspended {
        rejected := sound.Resume(env.resumes);
      }
    }

    /**
     * The unlock handler on a touchstart, touchend or click whose target is
     * `t`. Clicks on the enter button and on the landing screen stop their
     * propagation, so from there only touches reach it. The handler
     * initialises and resumes the generator, probes both tracks, then marks
     * audio unlocked and detaches the listeners, whatever the probes answered.
     * Reports whether it marked audio unlocked.
     */
    method UnlockAudio(t: Target, env: AudioEnv, celebrationProbe: bool, climaxProbe: bool) returns (unlocked: bool)
      requires Valid()
      modifies this`audioUnlocked, this`unlockListening, this`climax, this`celebration, sound
      ensures unlocked <==> UnlockActs(old(unlockListening), old(audioUnlocked), t) && !UnlockRejected(old(sound.State()), env)
      ensures audioUnlocked == (old(audioUnlocked) || unlocked)
      ensures unlockListening == (old(unlockListening) && !unlocked)
      ensures sound.State() == if UnlockActs(old(unlockListening), old(audioUnlocked), t)
        then UnlockedSound(old(sound.State()), env) else old(sound.State())
      ensures celebration == if unlocked then Probe(old(celebration), celebrationProbe) else old(celebration)
      ensures climax == if unlocked then Probe(old(climax), climaxProbe) else old(climax)
      ensures Valid()
    {
      if !(unlockListening && !audioUnlocked && IsValidTarget(t)) {
        return false;
      }
      var rejected := UnlockSound(env);
      if rejected {
        return false;
      }
      celebration := ProbeTrack(celebration, celebrationProbe);
      climax := ProbeTrack(climax, climaxProbe);
      audioUnlocked := true;
      unlockListening := false;
      unlocked := true;
    }

    /** The generator part of `initializeAudio()`; reports whether the retry timeout is armed. */
    method InitializeSound(env: AudioEnv) returns (retry: bool)
      requires Valid()
      modifies sound
      ensures retry == RetryArmed(old(sound.State()), env)
      ensures sound.State() == InitializedSound(old(sound.State()), env) && Valid()
    {
      sound.Initialize(env);
      if sound.context == Suspended {
        var rejected := sound.Resume(env.resumes);
        if rejected {
          return false;
        }
      }
      if sound.context == Running {
        var _ := sound.StartHeartbeatLoop(env);
        retry := false;
      } else {
        retry := true;
      }
    }

    /**
     * `initializeAudio()`: initialise, resume a suspended context (a
     * rejection ends the call), then start the heartbeat if the context runs,
     * or arm a one-off retry.
     */
    method InitializeAudio(env: AudioEnv)
      requires Valid()
      modifies this`heartbeatRetry, sound
      ensures sound.State() == InitializedSound(old(sound.State()), env) && Valid()
      ensures heartbeatRetry == (old(heartbeatRetry) || RetryArmed(old(sound.State()), env))
    {
      var retry := InitializeSound(env);
      if retry {
        heartbeatRetry := true;
      }
    }

    /** The heartbeat retry timeout armed by `InitializeAudio`: start the heartbeat if the context runs by now. */
    method RetryHeartbeatStart(env: AudioEnv)
      requires Valid()
      modifies this`heartbeatRetry, sound
      ensures !heartbeatRetry
      ensures sound.State() == if old(heartbeatRetry) && old(sound.State()).context == Running
        then HeartbeatStarted(old(sound.State()), env) else old(sound.State())
      ensures Valid()
    {
      if !heartbeatRetry {
        return;
      }
      heartbeatRetry := false;
      if sound.context == Running {
        var _ := sound.StartHeartbeatLoop(env);
      }
    }

    /**
     * The celebration song's reload at Start: `load()`, volume 0 and a
     * silent `play()` whose answer is `silentPlay`; a resolved play is
     * paused and rewound at once, so the answer does not matter.
     */
    static method SilentWarmup(s: TrackState, silentPlay: bool) returns (r: TrackState)
      ensures r == s.Stopped().(volume := 0)
    {
      r := s.Stopped().(volume := 0);
      if silentPlay {
        r := r.(paused := false);
        r := r.Stopped();
      }
    }

    /**
     * The first half of the Start click: stop all audio, mark the show
     * started and, on mobile, pre-authorise both tracks.
     */
    method OpenSession(env: AudioEnv)
      requires Valid()
      modifies this`experienceStarted, this`allAudiosPreAuthorized, this`climax, this`celebration, sound
      ensures experienceStarted && Valid()
      ensures allAudiosPreAuthorized ==
        (old(allAudiosPreAuthorized) || StartPreauthorizes(old(sound.State()), isMobile, old(allAudiosPreAuthorized), env))
      ensures climax == (if StartPreauthorizes(old(sound.State()), isMobile, old(allAudiosPreAuthorized), env)
        then old(climax).StoppedIfPlaying().(preloadAuto := true, volume := 80)
        else old(climax).StoppedIfPlaying())
      ensures celebration == (if StartPreauthorizes(old(sound.State()), isMobile, old(allAudiosPreAuthorized), env)
        then old(celebration).StoppedIfPlaying().(preloadAuto := true, volume := 70)
        else old(celebration).StoppedIfPlaying())
      ensures sound.State() == SessionSound(old(sound.State()), isMobile && !old(allAudiosPreAuthorized), env)
    {
      ghost var s0 := sound.State();
      StopAllAudio();
      assert PreauthorizeRejected(sound.State(), env) == PreauthorizeRejected(s0, env);
      experienceStarted := true;
      if isMobile {
        PreAuthorizeMobileAudio(env);
      }
    }

    /**
     * The second half of the Start click: arm the climax watch, initialise
     * audio, reload the celebration song silently (`silentPlay` answers its
     * warm-up play) and arm the landing countdown.
     */
    method Arm(env: AudioEnv, silentPlay: bool)
      requires Valid()
      modifies this`climaxWatch, this`heartbeatRetry, this`landingCount, this`celebration, sound
      ensures climaxWatch && landingCount == Some(Shipped.countdown)
      ensures celebration == old(celebration).Stopped().(volume := 0)
      ensures sound.State() == InitializedSound(old(sound.State()), env) && Valid()
      ensures heartbeatRetry == (old(heartbeatRetry) || RetryArmed(old(sound.State()), env))
    {
      climaxWatch := true;
      InitializeAudio(env);
      celebration := SilentWarmup(celebration, silentPlay);
      landingCount := Some(Shipped.countdown);
    }

    /**
     * The Start click: a second one does nothing. The first opens the
     * session and arms the show; `silentPlay` answers the celebration
     * song's warm-up play, which does not matter.
     */
    method StartExperience(env: AudioEnv, silentPlay: bool) returns (began: bool, next: Schedule)
      requires Valid()
      modifies this`experienceStarted, this`allAudiosPreAuthorized, this`climaxWatch, this`heartbeatRetry,
        this`landingCount, this`climax, this`celebration, sound
      ensures began <==> !old(experienceStarted)
      ensures experienceStarted && Valid()
      ensures !began ==> next == Terminal && unchanged(this, sound)
      ensures began ==> next == ScheduleFrom(Landing, Shipped) && climaxWatch && landingCount == Some(Shipped.countdown)
      ensures began ==> (allAudiosPreAuthorized ==
        (old(allAudiosPreAuthorized) || StartPreauthorizes(old(sound.State()), isMobile, old(allAudiosPreAuthorized), env)))
      ensures began ==> (climax ==
        if StartPreauthorizes(old(sound.State()), isMobile, old(allAudiosPreAuthorized), env)
        then old(climax).StoppedIfPlaying().(preloadAuto := true, volume := 80)
        else old(climax).StoppedIfPlaying())
      ensures began ==> celebration == old(celebration).Stopped().(volume := 0,
        preloadAuto := old(celebration).preloadAuto || StartPreauthorizes(old(sound.State()), isMobile, old(allAudiosPreAuthorized), env))
      ensures began ==> sound.State() == StartedSound(old(sound.State()), isMobile, old(allAudiosPreAuthorized), env)
      ensures began ==> (heartbeatRetry ==
        (old(heartbeatRetry) || StartArmsRetry(old(sound.State()), isMobile, old(allAudiosPreAuthorized), env)))
    {
      if experienceStarted {
        return false, Terminal;
      }
      OpenSession(env);
      Arm(env, silentPlay);
      began, next := true, ScheduleFrom(Landing, Shipped);
    }

    /** One period of the landing countdown; on the tick that fires, the fade to mystery begins. */
    method CountdownTick() returns (tick: Option<Tick>)
      modifies this`landingCount
      ensures tick == TickOf(old(landingCount), false)
      ensures landingCount == CountAfter(old(landingCount), false)
    {
      if landingCount.None? {
        return None;
      }
      var count := landingCount.value - 1;
      if count <= 0 {
        landingCount := None;
        tick := Some(Tick(Some(count), true));
      } else {
        landingCount := Some(count);
        tick := Some(Tick(Some(count), false));
      }
    }

    /** The heartbeat check of `startMysteryPhase()`. */
    method MysteryHeartbeatCheck(env: AudioEnv)
      requires Valid()
      modifies sound
      ensures sound.State() == MysteryHeartbeat(old(sound.State()), env) && Valid()
    {
      if sound.context != NoContext {
        if sound.context == Suspended {
          var rejected := sound.Resume(env.resumes);
          if !rejected && !sound.isHeartbeatPlaying {
            var _ := sound.StartHeartbeatLoop(env);
          }
        } else if !sound.isHeartbeatPlaying && sound.context == Running {
          var _ := sound.StartHeartbeatLoop(env);
        }
      }
    }

    /**
     * `startMysteryPhase()`: tag, stop the climax (via the phase rule and then
     * unconditionally), and the heartbeat check.
     */
    method StartMysteryPhase(env: AudioEnv) returns (next: Schedule)
      requires Valid()
      modifies this`phase, this`climax, sound
      ensures next == ScheduleFrom(Mystery, Shipped)
      ensures phase == Mystery && climax == old(climax).Stopped()
      ensures sound.State() == MysteryHeartbeat(old(sound.State()), env) && Valid()
    {
      phase := Mystery;
      StopInappropriateAudio();
      climax := climax.Stopped();
      MysteryHeartbeatCheck(env);
      next := ScheduleFrom(Mystery, Shipped);
    }

    /**
     * The play attempts of `playClimaxMusic()` on the cue `s`: one play once
     * it can play (`ready`: loaded, or `canplay` within the 5 s wait); on
     * mobile, after a failure, a silent play at volume 0 and, if that
     * resolves, a rewind and a play at 0.9.
     */
    static method ClimaxAttempt(isMobile: bool, ready: bool, plays: seq<bool>, s: TrackState) returns (r: TrackState)
      ensures r == ClimaxTrack(isMobile, ready, plays, s)
    {
      r := s.Stopped().(volume := ClimaxVolume(isMobile));
      if ready && Resolves(plays, 0) {
        r := r.(paused := false);
      } else if isMobile {
        r := r.(volume := 0);
        if Resolves(plays, 1) {
          r := r.(paused := false);
          r := r.Stopped().(volume := 90);
          if Resolves(plays, 2) {
            r := r.(paused := false);
          }
        }
      }
    }

    /** `playClimaxMusic()`. */
    method PlayClimaxMusic(ready: bool, plays: seq<bool>)
      modifies this`climax
      ensures climax == ClimaxTrack(isMobile, ready, plays, old(climax))
    {
      climax := ClimaxAttempt(isMobile, ready, plays, climax);
    }

    /** `startBuildupPhase()`: tag, heartbeat off, the climax cue's play attempt, final countdown from 5. */
    method StartBuildupPhase(ready: bool, plays: seq<bool>) returns (next: Schedule)
      requires Valid()
      modifies this`phase, this`climax, this`finalCount, sound
      ensures next == ScheduleFrom(Buildup, Shipped)
      ensures phase == Buildup && finalCount == Some(FinalCountdownFrom)
      ensures climax == ClimaxTrack(isMobile, ready, plays, old(climax))
      ensures sound.State() == HeartbeatStopped(old(sound.State())) && Valid()
    {
      phase := Buildup;
      StopInappropriateAudio();
      sound.StopHeartbeatLoop();
      PlayClimaxMusic(ready, plays);
      finalCount := Some(FinalCountdownFrom);
      next := ScheduleFrom(Buildup, Shipped);
    }

    /** One period of the final countdown; the tick that fires starts the duel. */
    method FinalCountdownTick() returns (tick: Option<Tick>)
      modifies this`finalCount
      ensures tick == TickOf(old(finalCount), true)
      ensures finalCount == CountAfter(old(finalCount), true)
    {
      if finalCount.None? {
        return None;
      }
      var count := finalCount.value - 1;
      if count > 0 {
        finalCount := Some(count);
        tick := Some(Tick(Some(count), false));
      } else {
        finalCount := None;
        tick := Some(Tick(None, true));
      }
    }

    /**
     * `startDuelPhase()`: tag, climax stopped, the entry's suspense tones
     * (returned as scheduled), and the offsets at which the duel sequence
     * sounds its later cues; each of those is a `DuelSuspenseCue` call.
     */
    method StartDuelPhase(env: AudioEnv) returns (next: Schedule, tones: seq<Tone>, cues: seq<nat>)
      requires Valid()
      modifies this`phase, this`climax, sound
      ensures next == ScheduleFrom(Duel, Shipped)
      ensures phase == Duel && climax == old(climax).Stopped()
      ensures tones == if sound.context == NoContext then [] else SuspenseTones()
      ensures sound.State() == EnsuredRunning(old(sound.State()), env) && Valid()
      ensures |cues| == 3 && cues == DuelScreen.SuspenseCues()[1..]
      ensures forall i :: 0 <= i < |cues| ==> 0 < cues[i] < next.delayMs
    {
      phase := Duel;
      StopInappropriateAudio();
      climax := climax.Stopped();
      tones := sound.GenerateSuspenseSound(env);
      next := ScheduleFrom(Duel, Shipped);
      cues := DuelScreen.SuspenseCues()[1..];
    }

    /**
     * One of the duel's later suspense cues (the loading stage and the two
     * victory lines): the context is made to run, which may create or resume
     * it, then five more tones when a context exists.
     */
    method DuelSuspenseCue(env: AudioEnv) returns (tones: seq<Tone>)
      requires Valid()
      modifies sound
      ensures tones == if sound.context == NoContext then [] else SuspenseTones()
      ensures sound.State() == EnsuredRunning(old(sound.State()), env) && Valid()
    {
      tones := sound.GenerateSuspenseSound(env);
    }

    /** `startRevealPhase()`: tag and the celebration tones; the tracks are left alone. */
    method StartRevealPhase(env: AudioEnv) returns (next: Schedule, tones: seq<Tone>)
      requires Valid()
      modifies this`phase, sound
      ensures next == ScheduleFrom(Reveal, Shipped)
      ensures phase == Reveal
      ensures tones == if sound.context == NoContext then [] else CelebrationTones()
      ensures sound.State() == EnsuredRunning(old(sound.State()), env) && Valid()
    {
      phase := Reveal;
      tones := sound.GenerateCelebrationSound(env);
      next := ScheduleFrom(Reveal, Shipped);
    }

    /** `showCelebrationMusicButton()`: every existing button removed, one new one; returns it. */
    method ShowCelebrationMusicButton() returns (b: nat)
      requires Valid()
      modifies this`musicButtons, this`nextButton
      ensures b == old(nextButton) && b !in old(musicButtons)
      ensures musicButtons == {b} && nextButton == b + 1 && Valid()
    {
      var existing := musicButtons;
      while existing != {}
        invariant musicButtons == existing
        modifies this`musicButtons
        decreases existing
      {
        var e :| e in existing;
        musicButtons := musicButtons - {e};
        existing := existing - {e};
      }
      b := nextButton;
      musicButtons := musicButtons + {b};
      nextButton := nextButton + 1;
    }

    /**
     * The play attempts of `playCelebrationMusicDefinitive()` on the song
     * `s`: the direct play, then on mobile up to three muted silent rounds
     * (the first rejection ends them) and a real play at 0.9.
     */
    static method CelebrationLadder(isMobile: bool, plays: seq<bool>, s: TrackState) returns (rung: Rung, r: TrackState)
      ensures rung == CelebrationRung(isMobile, plays)
      ensures r == CelebrationTrack(isMobile, plays, s)
    {
      r := s.Stopped().(volume := CelebrationVolume(isMobile));
      ghost var s0 := r;
      if Resolves(plays, 0) {
        return Direct, r.(paused := false);
      }
      if isMobile {
        var i := 0;
        var failed := false;
        while i < 3 && !failed
          invariant 0 <= i <= 3
          invariant failed ==> i < 3 && i == UnlockRounds(plays)
          invariant !failed ==> i <= UnlockRounds(plays)
          invariant r == if i == 0 && !failed then s0 else s0.(muted := true, volume := 0)
          decreases 3 - i, if failed then 0 else 1
        {
          r := r.(muted := true, volume := 0);
          if Resolves(plays, i + 1) {
            r := r.(paused := false);
            r := r.Stopped();
            i := i + 1;
          } else {
            failed := true;
          }
        }
        if !failed {
          r := r.(muted := false, volume := 90);
          if Resolves(plays, 4) {
            return Aggressive, r.(paused := false);
          }
        }
      }
      rung := Button;
    }

    /**
     * `playCelebrationMusicDefinitive()`: the ladder, then the manual button
     * exactly when the song stays paused.
     */
    method PlayCelebrationMusicDefinitive(plays: seq<bool>) returns (rung: Rung)
      requires Valid()
      modifies this`celebration, this`musicButtons, this`nextButton
      ensures Valid()
      ensures rung == CelebrationRung(isMobile, plays)
      ensures celebration == CelebrationTrack(isMobile, plays, old(celebration))
      ensures celebration.paused ==> musicButtons == {old(nextButton)} && nextButton == old(nextButton) + 1
      ensures !celebration.paused ==> musicButtons == old(musicButtons) && nextButton == old(nextButton)
    {
      rung, celebration := CelebrationLadder(isMobile, plays, celebration);
      ButtonIffStillPaused(isMobile, plays, old(celebration));
      if rung == Button {
        var _ := ShowCelebrationMusicButton();
      }
    }

    /**
     * `startCelebrationPhase()`: first the checkpoint (tag, heartbeat and every
     * oscillator stopped, climax paused at the start, the celebration song
     * paused too if it was playing), then the song's ladder.
     */
    method StartCelebrationPhase(plays: seq<bool>) returns (rung: Rung)
      requires Valid()
      modifies this`phase, this`climax, this`celebration, this`musicButtons, this`nextButton, sound
      ensures phase == Celebration && climax == old(climax).Stopped()
      ensures sound.State() == CheckpointSound(old(sound.State())) && Valid()
      ensures rung == CelebrationRung(isMobile, plays)
      ensures celebration == CelebrationTrack(isMobile, plays, old(celebration).StoppedIfPlaying())
      ensures celebration.paused ==> musicButtons == {old(nextButton)} && nextButton == old(nextButton) + 1
      ensures !celebration.paused ==> musicButtons == old(musicButtons) && nextButton == old(nextButton)
    {
      phase := Celebration;
      sound.StopHeartbeatLoop();
      sound.StopAllSounds();
      climax := climax.Stopped();
      StopAllAudioExceptCelebration();
      rung := PlayCelebrationMusicDefinitive(plays);
    }

    /** A click on manual button `b`: set the volume and play; the button goes away once the song plays. */
    method CelebrationButtonClick(b: nat, resolves: bool)
      requires Valid()
      modifies this`celebration, this`musicButtons
      ensures Valid()
      ensures celebration == if b in old(musicButtons) then ButtonPlay(isMobile, resolves, old(celebration)) else old(celebration)
      ensures musicButtons == if b in old(musicButtons) && resolves then old(musicButtons) - {b} else old(musicButtons)
    {
      if b !in musicButtons {
        return;
      }
      celebration := celebration.(volume := CelebrationVolume(isMobile));
      if resolves {
        celebration := celebration.(paused := false);
        musicButtons := musicButtons - {b};
      }
    }

    /** The 15 s timeout of button `b`: removes it if it is still there. */
    method CelebrationButtonExpire(b: nat)
      requires Valid()
      modifies this`musicButtons
      ensures Valid()
      ensures musicButtons == old(musicButtons) - {b}
    {
      if b in musicButtons {
        musicButtons := musicButtons - {b};
      }
    }

    /**
     * One tick of the climax watch armed at Start: play the cue if the
     * buildup is silent, keep watching in mystery (and in the never-assigned
     * 'countdown'), stop watching anywhere else. Its first tick comes while
     * the tag is still 'landing', so it clears itself without playing.
     */
    method ClimaxWatchTick(ready: bool, plays: seq<bool>)
      modifies this`climaxWatch, this`climax
      ensures climaxWatch == (old(climaxWatch) && WatchGoesOn(phase, old(climax).paused))
      ensures climax == if old(climaxWatch) && phase == Buildup && old(climax).paused
        then ClimaxTrack(isMobile, ready, plays, old(climax)) else old(climax)
      ensures phase == Landing ==> !climaxWatch && climax == old(climax)
    {
      if !climaxWatch {
        return;
      }
      if phase == Buildup && climax.paused {
        PlayClimaxMusic(ready, plays);
        climaxWatch := false;
      } else if phase != Buildup && phase != Mystery && phase != Countdown {
        climaxWatch := false;
      }
    }

    /** `restartExperience()`: the four session flags reset; the page reload that follows is not modelled. */
    method RestartExperience()
      modifies this`experienceStarted, this`audioUnlocked, this`allAudiosPreAuthorized, this`celebrationMusicAllowed
      ensures !experienceStarted && !audioUnlocked && !allAudiosPreAuthorized && !celebrationMusicAllowed
    {
      experienceStarted := false;
      audioUnlocked := false;
      allAudiosPreAuthorized := false;
      celebrationMusicAllowed := false;
    }
  }
}
