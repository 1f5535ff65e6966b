# Reveal show control layer in Dafny

This project models the discrete core of a browser "gender reveal" show. The
show is a timed sequence of phases (landing countdown, mystery, buildup, duel,
reveal, celebration) driven by the `RevealExperience` controller, with a
synthetic sound generator (`SoundGenerator`) for the heartbeat and the tones
and two music tracks (the climax cue and the celebration song).

What is modelled:

- `EXPERIENCE_CONFIG.timing` and the offset sums derived from it, the phase
  order each entry method schedules, and the two countdowns as tick sequences
  (`timing.dfy`).
- The duel's power-bar timeline (`duel.dfy`).
- `detectMobile`, the value `bindEvents` finally leaves in `isMobile`, and the
  unlock handler's target test (`platform.dfy`).
- The music tracks as values of their fields, with volumes in integer
  hundredths (`media.dfy`).
- The `SoundGenerator`: a class whose fields mirror the JavaScript object,
  with every method proved against a function on a `SoundState` snapshot
  (`sounds.dfy`).
- The play attempts of the tracks (the climax retry, the celebration fallback
  ladder, the unlock probes, the manual button, the fade-in) as functions of
  the browser's answers (`playback.dfy`).
- The controller's composite audio steps as functions (`flow.dfy`), and the
  `RevealExperience` class itself (`experience.dfy`). Each of its methods
  names the fields it may change and states every new value in terms of the
  old ones.

Browser answers are parameters: `AudioEnv` says whether an `AudioContext` can
be created, whether it starts suspended and whether `resume()` resolves; a
`seq<bool>` gives the answers of successive `play()` calls (a call past the
end of the sequence rejects); `ready` says whether the climax cue can play
within the 5 s `canplay` wait. Timers are not run: a method that arms one
returns a `Schedule` (or, for the duel's later suspense cues, their offsets),
and each interval or timeout callback that touches audio, the phase or the
countdowns is a method that the environment calls.

Behaviour reproduced as the code has it:

- the `'countdown'` phase tag is tested but never assigned, so the tag stays
  `'landing'` throughout the landing countdown (`Timing.LandingChain`);
- the buildup ends after the 5 x 1200 ms final countdown, and the configured
  17000 ms buildup duration is never used (`Timing.BuildupDurationUnused`);
- `stopAllAudioExceptCelebration` also pauses a playing celebration song;
- `bindEvents` overwrites `isMobile` with the user-agent test alone unless it
  returned early because the enter button is missing
  (`Platform.NarrowDesktopWindow`);
- a second `startHeartbeatLoop` overwrites the interval handle without
  clearing it, and only the loop flag keeps the old interval silent
  (`Sounds.SecondStartLeaks`);
- the climax watch's first tick comes while the tag is still `'landing'`, so
  it clears itself without ever playing the cue
  (`Experience.RevealExperience.ClimaxWatchTick`).

## Model

| member | source | states |
|---|---|---|
| Timing.AudioCheckpoints | experience.js:265-269 | the four audio checkpoints are cumulative sums of the configured durations, so countdown x 1000 <= mystery <= buildup <= celebration |
| Timing.TotalTimeUntilCelebration | experience.js:883-889 | the logged total is the celebration checkpoint plus one more reveal duration |
| Timing.ShippedCheckpoints | experience.js:8-17 | with the shipped configuration the checkpoints are 10000, 24000, 41000 and 69000 ms and the logged total is 77000 ms |
| Timing.ForbidsClimaxExactly | experience.js:195-219 | the climax cue is stopped in every phase except landing and buildup |
| Timing.Next | experience.js:1110-1112 | each phase schedules only a later phase, and never the 'countdown' tag |
| Timing.ScheduleFrom | experience.js:995-2487 | the timer each phase entry arms (the landing interval at 995-1000, the mystery timeout at 1110-1112, the final countdown started at 1269, the duel and reveal timeouts at 1585-1587 and 2485-2487) is the one leading to its successor; celebration arms none |
| Timing.ChainAdvances | experience.js:995-2487 | following the timers the phase entries arm, from any phase, visits phases in strictly increasing order, so no phase is re-entered |
| Timing.LandingChain | experience.js:1015-1016 | from landing the tag runs landing, mystery, buildup, duel, reveal, celebration, and 'countdown' never appears |
| Timing.BuildupDurationUnused | experience.js:1272-1294 | the time from Start to celebration does not depend on the configured buildup duration |
| Timing.ShippedElapsed | experience.js:883-889 | the celebration begins 60 s after Start on desktop (60.3 s on mobile), earlier than the 69 s checkpoint and the logged 77 s |
| Timing.TicksShape | experience.js:988-1001 | a countdown from n yields exactly n ticks, only the last clears the interval, and tick i shows n - 1 - i |
| Timing.LandingCountdown | experience.js:988-1001 | the landing countdown shows 9 down to 0 and hands over to mystery exactly once, on the 10th tick |
| Timing.FinalCountdown | experience.js:1272-1294 | the final countdown shows 4 down to 1 and starts the duel exactly once, on the 5th tick |
| Duel.Timeline | experience.js:2158-2259 | four bar states at 0, 3000, 6000 and 10000 ms, all before the 20000 ms reveal, each summing to 100 %, starting at 50/50 and ending at 100/0 |
| Duel.SuspenseCues | experience.js:2088-2292 | the duel's four suspense cues start with the entry's at 0 ms, come in strictly increasing order and all fall before the reveal |
| Duel.LastUpdateWins | experience.js:2238-2259 | once the last update of a timeline is due its widths are on screen, whatever came before |
| Duel.MeninaWins | experience.js:1585-1587 | from 10 s into the duel until the reveal the bars read 100 % menina, 0 % menino |
| Platform.ResolveIsMobile | experience.js:782-784 | isMobile after the constructor is the user-agent test when the enter button exists, and detectMobile otherwise |
| Platform.NarrowDesktopWindow | experience.js:736-739 | a narrow window with a desktop user agent is mobile for detectMobile but not after bindEvents overwrites the flag |
| Platform.TokenMakesMobile | experience.js:77-82 | a mobile token anywhere in the user agent, in any ASCII letter case, makes the device mobile whatever the width |
| Platform.ValidTargetIffInsideControl | experience.js:89-95 | a tap may unlock audio exactly when it lands on or inside the enter button, a button, or a music, share or repeat control |
| Media.TrackState.StoppedIfPlaying | experience.js:169-173 | a playing track is paused and rewound; a paused track keeps its position |
| Media.Track.constructor | experience.js:789-796 | a new track is paused at the start with preload 'auto' and the given volume |
| Sounds.FreshInv | sounds.js:3-9 | the freshly constructed generator satisfies the generator invariant |
| Sounds.Initialized | sounds.js:11-28 | nothing happens once initialised; the flag becomes true only if a context is created and, when it starts suspended, resumed |
| Sounds.EnsuredRunning | sounds.js:30-43 | a running context is left alone; with a resume that resolves any existing context ends running |
| Sounds.ToneAdded | sounds.js:67 | with a context, one fresh oscillator id joins the active set |
| Sounds.EndTone | sounds.js:88-90 | `onended` removes exactly that id from the active set |
| Sounds.ToneRoundTrip | sounds.js:58-90 | creating a tone and then ending it leaves the active set as it was |
| Sounds.HeartbeatTones | sounds.js:50-55 | a beat is 80 Hz at the beat's start, then 60 Hz exactly 150 ms later |
| Sounds.Beaten | sounds.js:46-56 | a beat adds two oscillators when a context exists and never touches the loop flag or the timers |
| Sounds.HeartbeatStarted | sounds.js:243-255 | without a context nothing changes; otherwise the flag is on, a fresh interval is armed and held, and two oscillators join |
| Sounds.HeartbeatTicked | sounds.js:250-254 | an interval tick beats only while its timer is live and the loop flag is on |
| Sounds.HeartbeatStopped | sounds.js:257-263 | after a stop the flag is off, no interval is held, and no interval produces a beat |
| Sounds.ForceStopped | sounds.js:265-275 | every active oscillator is stopped and the active set ends empty |
| Sounds.AllStopped | sounds.js:277-285 | after stopAllSounds the flag is off, no interval is held, the active set is empty and nothing beats |
| Sounds.StopsIdempotent | sounds.js:257-285 | each stop applied twice equals the same stop applied once |
| Sounds.SecondStartLeaks | sounds.js:243-263 | a second start overwrites the held handle: the stop clears only the newer one, the older one keeps firing silently, and beats again after a restart |
| Sounds.SuspenseTones | sounds.js:106-112 | five 800 ms tones from 0 to 2000 ms, strictly increasing in time and in pitch, all within 40-60 Hz |
| Sounds.SuspenseSchedule | sounds.js:108-112 | the timeout loop arms exactly the SuspenseTones schedule |
| Sounds.CelebrationTones | sounds.js:159-175 | fourteen tones in increasing time: the four chord notes C4 < E4 < G4 < C5 at 500 ms each, then ten 100 ms sparkles at random pitches in [800 Hz, 1200 Hz), the first of them after the chord has ended |
| Sounds.CelebrationSchedule | sounds.js:161-175 | the two timeout loops arm exactly the CelebrationTones schedule |
| Sounds.SoundGenerator.constructor | sounds.js:3-9 | the generator starts with no context, not initialised, no loop and no oscillators |
| Sounds.SoundGenerator.Initialize | sounds.js:11-28 | the new state is Initialized of the old one and the invariant is kept |
| Sounds.SoundGenerator.Resume | sounds.js:35-41 | a suspended context runs when the resume resolves; the result reports whether it is still suspended |
| Sounds.SoundGenerator.EnsureAudioContextRunning | sounds.js:30-43 | the new state is EnsuredRunning of the old one |
| Sounds.SoundGenerator.CreateTone | sounds.js:58-67 | an id is returned exactly when a context exists, it is fresh, and it is in the active set |
| Sounds.SoundGenerator.OscillatorEnded | sounds.js:88-90 | the new state is EndTone of the old one |
| Sounds.SoundGenerator.GenerateHeartbeat | sounds.js:46-56 | the beat's two tones are returned when a context exists and the new state is Beaten of the old one |
| Sounds.SoundGenerator.GenerateSuspenseSound | sounds.js:101-113 | after the context check, the SuspenseTones schedule is armed when a context exists and nothing otherwise |
| Sounds.SoundGenerator.GenerateCelebrationSound | sounds.js:155-176 | after the context check, the CelebrationTones schedule is armed when a context exists and nothing otherwise |
| Sounds.SoundGenerator.StartHeartbeatLoop | sounds.js:243-255 | the new state is HeartbeatStarted of the old one and the returned handle is the one held |
| Sounds.SoundGenerator.HeartbeatTick | sounds.js:250-254 | the tick beats exactly when its timer is live and the flag is on |
| Sounds.SoundGenerator.StopHeartbeatLoop | sounds.js:257-263 | the new state is HeartbeatStopped of the old one |
| Sounds.SoundGenerator.ForceStopAllSounds | sounds.js:265-275 | the loop calls stop() on every active oscillator and the set ends empty |
| Sounds.SoundGenerator.StopAllSounds | sounds.js:277-285 | the new state is AllStopped of the old one |
| Playback.UnlockRounds | experience.js:591-598 | counts the leading silent rounds that resolve, at most three; the round after them rejects |
| Playback.CelebrationTrack | experience.js:564-615 | the song ends rewound; it plays at its volume when the direct play resolves, and otherwise only after the full mobile ladder |
| Playback.ButtonIffStillPaused | experience.js:564-615 | the manual button is shown exactly when the ladder leaves the song paused |
| Playback.DesktopSingleAttempt | experience.js:586-611 | on desktop the ladder makes one attempt and shows the button exactly when it rejects |
| Playback.TwoRejectionsShowButton | experience.js:591-611 | a rejected direct play followed by a rejected first silent round shows the button |
| Playback.FailedRoundLeavesMuted | experience.js:591-595 | a rejected silent round leaves the song muted, and a manual click that plays it plays it muted |
| Playback.ButtonPlay | experience.js:627-637 | a manual click sets the celebration volume and the song plays when the click's play resolves |
| Playback.ClimaxTrack | experience.js:315-371 | the cue ends rewound and, when it plays, at the device's climax volume or the mobile retry's 0.9 |
| Playback.ClimaxPlaysIff | experience.js:315-371 | the cue plays exactly when the direct play resolves after the load, or on mobile both retry plays resolve |
| Playback.ClimaxRetryLeavesSilent | experience.js:355-369 | on mobile, a rejected silent retry leaves the cue paused at volume 0 |
| Playback.Probe | experience.js:116-142 | a probe mutes the track at volume 0; when it resolves the track ends paused, rewound and unmuted |
| Playback.FadeLevel | experience.js:426-435 | each fade step is 0.05 higher, clamped at the target |
| Playback.FadeSteps | experience.js:426-435 | the fade ends on the first step that reaches the target, and every earlier step is below it |
| Playback.ShippedFades | experience.js:427 | the fade takes 14 steps to 0.7 and 16 steps to 0.8 |
| Playback.FadeIn | experience.js:426-435 | the fade writes FadeSteps(target) strictly increasing volumes and leaves the track at the target |
| Flow.Silenced | experience.js:182-190 | stopAllAudio leaves the heartbeat off, no interval, no oscillators and no beating interval, and keeps the context |
| Flow.ExceptCelebrationSilenced | experience.js:3331-3362 | the heartbeat is off and, when a context exists, every oscillator is stopped; the force-stop branch never runs |
| Flow.PreauthorizedSound | experience.js:224-236 | an initialised generator is left alone; otherwise the pre-authorisation throws exactly when the context stays suspended |
| Flow.UnlockedSound | experience.js:116-122 | the unlock handler's initialise-and-resume throws exactly when the context stays suspended |
| Flow.InitializedSound | experience.js:945-986 | a running context ends with the heartbeat on, and the retry is armed exactly when no context exists |
| Flow.SessionSound | experience.js:858-876 | without pre-authorisation everything is stopped; with it, the rejection is decided by the context staying suspended |
| Flow.StartedSound | experience.js:847-914 | the Start click keeps the generator invariant |
| Flow.StartRetryOnlyWithoutContext | experience.js:964-984 | the Start click arms the heartbeat retry exactly when it leaves no context, and a running context ends with the heartbeat on |
| Flow.CountAfter | experience.js:988-1001 | a tick decrements the count, or clears the interval exactly on the tick that fires |
| Flow.CountdownRunIsTicks | experience.js:988-1001 | ticking the stored count yields exactly the ticks of the countdown specification, then stops |
| Flow.MysteryHeartbeat | experience.js:1028-1050 | with a context and a resume that resolves the context runs with the heartbeat on; without a context or with a rejected resume nothing changes |
| Flow.CheckpointSound | experience.js:2550-2568 | at the celebration checkpoint the heartbeat is off, no interval is held, and the oscillator set is empty |
| Experience.RevealExperience.constructor | experience.js:28-57 | the show starts in landing with all session flags false, both tracks loaded, isMobile resolved, and the unlock listeners attached exactly on mobile |
| Experience.RevealExperience.StopAllAudio | experience.js:165-192 | each track is stopped if playing and the generator is Silenced |
| Experience.RevealExperience.StopInappropriateAudio | experience.js:195-219 | only the climax cue changes, and only in the phases that forbid it |
| Experience.RevealExperience.StopAllAudioExceptCelebration | experience.js:3328-3372 | the climax cue is stopped, the celebration song is stopped if playing, and the generator is ExceptCelebrationSilenced |
| Experience.RevealExperience.PreauthorizeSound | experience.js:224-236 | reports a rejected resume, and the generator ends as PreauthorizedSound |
| Experience.RevealExperience.PreAuthorizeMobileAudio | experience.js:221-259 | the flag ends true exactly when it already was or the resume did not reject; only then do the tracks get preload 'auto' and volumes 0.8 and 0.7 |
| Experience.RevealExperience.ProbeTrack | experience.js:116-127 | one track's unlock probe gives the Probe of the track |
| Experience.RevealExperience.UnlockSound | experience.js:116-122 | reports a context still suspended, and the generator ends as UnlockedSound |
| Experience.RevealExperience.UnlockAudio | experience.js:86-155 | audio is marked unlocked and the listeners detached exactly when the handler acts and initialise-or-resume does not throw, whatever the probes answer |
| Experience.RevealExperience.InitializeSound | experience.js:948-984 | reports whether the retry is armed, and the generator ends as InitializedSound |
| Experience.RevealExperience.InitializeAudio | experience.js:945-986 | the generator ends as InitializedSound and the retry is armed exactly when RetryArmed |
| Experience.RevealExperience.RetryHeartbeatStart | experience.js:973-983 | the retry clears itself and starts the heartbeat only if it was armed and the context runs |
| Experience.RevealExperience.SilentWarmup | experience.js:909-926 | the celebration song ends paused at the start at volume 0 whatever its silent play answered |
| Experience.RevealExperience.OpenSession | experience.js:858-876 | every sound is stopped, the show is marked started and, on mobile, the pre-authorisation decides the tracks and the flag |
| Experience.RevealExperience.Arm | experience.js:879-937 | the climax watch and the landing countdown are armed, the celebration song is reloaded at volume 0, and the generator ends as InitializedSound |
| Experience.RevealExperience.StartExperience | experience.js:847-943 | a second click changes nothing; the first stops all audio, marks the show started exactly once, pre-authorises on mobile and arms the landing countdown |
| Experience.RevealExperience.CountdownTick | experience.js:988-1001 | the tick is TickOf the stored count and the count becomes CountAfter it |
| Experience.RevealExperience.MysteryHeartbeatCheck | experience.js:1028-1050 | the generator ends as MysteryHeartbeat |
| Experience.RevealExperience.StartMysteryPhase | experience.js:1015-1112 | the tag is mystery, the climax cue is paused at the start, the heartbeat check runs, and only the buildup is scheduled |
| Experience.RevealExperience.ClimaxAttempt | experience.js:315-371 | the play attempts give the ClimaxTrack of the cue |
| Experience.RevealExperience.PlayClimaxMusic | experience.js:315-371 | the cue ends as ClimaxTrack |
| Experience.RevealExperience.StartBuildupPhase | experience.js:1174-1269 | the tag is buildup, the heartbeat is stopped, the cue's play attempt runs, and the final countdown starts from 5 |
| Experience.RevealExperience.FinalCountdownTick | experience.js:1272-1294 | the tick is TickOf the stored count and the count becomes CountAfter it |
| Experience.RevealExperience.StartDuelPhase | experience.js:1296-1587 | the tag is duel, the climax cue is paused at the start, the SuspenseTones schedule is armed when a context exists (nothing otherwise), only the reveal is scheduled, and the three later cue offsets it returns fall strictly between the entry and the reveal timeout |
| Experience.RevealExperience.DuelSuspenseCue | experience.js:2096-2098 | each later duel cue (at 2096-2098, 2274 and 2290) makes the context run, which may create or resume it, and arms the SuspenseTones schedule when a context exists, nothing otherwise |
| Experience.RevealExperience.StartRevealPhase | experience.js:2386-2487 | the tag is reveal, the tracks are untouched, the CelebrationTones schedule is armed when a context exists (nothing otherwise), and only the celebration is scheduled |
| Experience.RevealExperience.ShowCelebrationMusicButton | experience.js:617-645 | every existing button is removed and exactly one new button remains, whose id no earlier button had, so no earlier button's 15 s expiry can remove it |
| Experience.RevealExperience.CelebrationLadder | experience.js:564-615 | the loop's rung is CelebrationRung and the song ends as CelebrationTrack |
| Experience.RevealExperience.PlayCelebrationMusicDefinitive | experience.js:564-615 | the song ends as CelebrationTrack, and a single new button appears exactly when it stays paused |
| Experience.RevealExperience.StartCelebrationPhase | experience.js:2540-2572 | the checkpoint (heartbeat off, oscillators cleared, climax paused at the start, the song stopped if playing) comes before the ladder, which starts from the stopped song |
| Experience.RevealExperience.CelebrationButtonClick | experience.js:627-637 | a click on a shown button plays the song at its volume, and the button goes away only when the play resolves |
| Experience.RevealExperience.CelebrationButtonExpire | experience.js:641-644 | after 15 s the button is gone |
| Experience.RevealExperience.ClimaxWatchTick | experience.js:271-284 | the watch plays the cue only in a silent buildup, keeps going in mystery or while the cue plays, and clears itself in landing without playing |
| Experience.RevealExperience.RestartExperience | experience.js:3306-3326 | the four session flags are reset, so the next Start click begins the show again |

## Left out

- DOM and CSS output, the particle, confetti and balloon generators, vibration, share and clipboard, the music toggle and volume slider, and the page reload after a restart: these are presentation and platform I/O.
- The Web Audio node graph (oscillators, gains, filters, envelopes, float frequencies): only the active-oscillator set is kept. Frequencies are integer hundredths of a hertz, and the sparkle's random pitch is recorded as a range.
- Floating-point volumes: volumes are integer hundredths of the [0, 1] range. The float fade loop reaches 0.7 after 14 steps and 0.8 after 16, as the integer one does.
- Concurrency: promise interleavings are not modelled. For example, touchstart, touchend and click can each re-enter the unlock handler before `audioUnlocked` is set, and a silent play can resolve after later code has run. Each asynchronous step is taken to complete before the next call.
- Timers as concurrency: entry methods return the `Schedule` they arm, and each callback is a method of its own. The celebration song's silent warm-up play collapses to its final state, which is the same whichever way the play answers.
- The `canplay` wait of `playClimaxMusic` with its 5 s timeout: it is the `ready` parameter.
- `AudioEnv.resumes`: one answer serves every `resume()` within a single call.
- Experience.RevealExperience.StartExperience: the `catch` path is not modelled. When the enter button is missing (the manual and debug entry points reach the start without it), disabling it and setting the button text throw, and the `catch` starts the landing countdown at once instead of after 1000 ms. The model always takes the 1000 ms path, so in that case `Timing.ElapsedToCelebration` overstates the time to the celebration by 1 s.
- Null tracks and the missing-element guards (`if (this.climaxMusic)`, the duel's `versusContainer`): the tracks always exist once the constructor has run.
- The celebration interval of `scheduleAutoAudioPlayback` and its clean-up timeouts (experience.js:302-308): the timeouts do run, but they change nothing the model keeps, because the interval plays nothing and the climax watch has already cleared itself by then.
- Dead code that the show never calls: `showDuelWinner`, `playCelebrationMusic` with its manual buttons, `playCelebrationMusicWithTiming`, `showSimpleMusicButton`, `showAudioEnableButton` and `debugButton`. The fade-in of `playCelebrationMusic` is modelled as `Playback.FadeIn`, even though that code is unreachable.
- Platform.TokenMakesMobile: case folding is ASCII only, which is enough for the ASCII tokens of the user-agent test.
- Sounds.SoundGenerator.GenerateSuspenseSound: the per-tone timeouts are returned as a schedule. Their later `CreateTone` calls are separate.
- Sounds.SoundGenerator.GenerateCelebrationSound: the per-tone timeouts are handled the same way.
- Tracks are values held in the controller's fields, so aliasing of the audio elements is not modelled.
- Track objects: the controller's play attempts (`ProbeTrack`, `ClimaxAttempt`, `CelebrationLadder`) work on track values, and each is proved equal to its specification function in module Playback (`Probe`, `ClimaxTrack`, `CelebrationTrack`). Only the fade-in, whose volume the source writes step by step, uses the `Media.Track` class, and that fade-in is unreachable code.
- Bootstrap glue: the global bootstrap, the fallback re-initialisation and zoom prevention.
