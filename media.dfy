/**
 * The two background-music elements (the climax cue and the celebration
 * song) as the show sees them: the fields of an HTMLAudioElement it reads
 * and writes. Volumes are integer hundredths of the element's [0, 1] range.
 */
module Media {

  type Volume = v: nat | v <= 100

  /** A snapshot of a track's fields. */
  datatype TrackState = TrackState(paused: bool, position: nat, volume: Volume, muted: bool, preloadAuto: bool)
  {
    /** `pause(); currentTime = 0`. */
    function Stopped(): (r: TrackState)
      ensures r.paused && r.position == 0
      ensures r.volume == volume && r.muted == muted && r.preloadAuto == preloadAuto
    {
      this.(paused := true, position := 0)
    }

    /** `if (!track.paused) { pause(); currentTime = 0 }`: a paused track keeps its position. */
    function StoppedIfPlaying(): (r: TrackState)
      ensures r.paused
      ensures paused ==> r == this
      ensures !paused ==> r.position == 0
      ensures r.volume == volume && r.muted == muted && r.preloadAuto == preloadAuto
    {
      if paused then this else Stopped()
    }
  }

  /** A track element whose volume is written step by step (the fade-in). */
  class Track {
    var paused: bool
    var position: nat
    var volume: Volume
    var muted: bool
    var preloadAuto: bool

    function State(): TrackState
      reads this
    {
      TrackState(paused, position, volume, muted, preloadAuto)
    }

    /** `new Audio(src)` followed by `preload = 'auto'` and the initial volume. */
    constructor (initialVolume: Volume)
      ensures State() == TrackState(true, 0, initialVolume, false, true)
    {
      paused := true;
      position := 0;
      volume := initialVolume;
      muted := false;
      preloadAuto := true;
    }

    method SetVolume(v: Volume)
      modifies this
      ensures State() == old(State()).(volume := v)
    {
      volume := v;
    }
  }
}
