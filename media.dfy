/**
 * The video element as both controllers see it, and the two maps between a
 * slider position and a playback time.
 *
 * A `Video` is an object: the controllers compare videos by identity and write
 * to their playback fields. Layout (whether the element is laid out and its
 * bounding box) is written by the page, not by the controllers.
 */
module Media {

  /** A bounding client rectangle; right and bottom are derived as in the DOM. */
  datatype Rect = Rect(left: real, top: real, width: real, height: real)
  {
    function Right(): real { left + width }
    function Bottom(): real { top + height }

    /** The pointer test of the content script: closed bounds on all four sides. */
    predicate Contains(x: real, y: real)
    {
      left <= x <= Right() && top <= y <= Bottom()
    }
  }

  /** Every field of a video, as one value. */
  datatype VideoState = VideoState(
    laidOut: bool, rect: Rect, paused: bool, currentTime: real, duration: real,
    playbackRate: real, muted: bool, volume: real, hasControls: bool, watched: bool)

  class Video {
    /** `offsetParent !== null`: the element takes part in layout. */
    var laidOut: bool
    /** `getBoundingClientRect()` at the current moment. */
    var rect: Rect
    var paused: bool
    var currentTime: real
    /** Zero while the length is unknown. */
    var duration: real
    var playbackRate: real
    var muted: bool
    var volume: real
    /** Whether the native `controls` attribute is present. */
    var hasControls: bool
    /** Whether the overlay's play/pause/volumechange listeners are attached. */
    var watched: bool

    constructor (laidOut: bool, rect: Rect, duration: real)
      ensures this.laidOut == laidOut && this.rect == rect && this.duration == duration
      ensures paused && currentTime == 0.0 && playbackRate == 1.0
      ensures !muted && volume == 1.0 && hasControls && !watched
    {
      this.laidOut := laidOut;
      this.rect := rect;
      this.duration := duration;
      paused := true;
      currentTime := 0.0;
      playbackRate := 1.0;
      muted := false;
      volume := 1.0;
      hasControls := true;
      watched := false;
    }

    function State(): VideoState
      reads this
    {
      VideoState(laidOut, rect, paused, currentTime, duration, playbackRate, muted, volume, hasControls, watched)
    }

    /** `play()`: the request clears `paused` at once; the returned promise is not modelled. */
    method Play()
      modifies this
      ensures State() == old(State()).(paused := false)
    {
      paused := false;
    }

    /** `pause()`: sets `paused`. */
    method Pause()
      modifies this
      ensures State() == old(State()).(paused := true)
    {
      paused := true;
    }
  }

  /** The icon a play button shows; both controllers show pause while the video plays. */
  datatype PlayIcon = ShowsPlay | ShowsPause

  /** JavaScript truthiness of a duration (NaN is not modelled): zero is false. */
  predicate Truthy(duration: real)
  {
    duration != 0.0
  }

  /** The seek slider runs from 0 to 100: position v maps to time v/100 of the duration. */
  function SeekTarget(v: real, duration: real): (t: real)
    ensures 0.0 <= v <= 100.0 && duration > 0.0 ==> 0.0 <= t <= duration
    ensures v == 0.0 ==> t == 0.0
    ensures v == 100.0 ==> t == duration
  {
    (v / 100.0) * duration
  }

  /** The fraction of the duration played, in percent: `currentTime / duration * 100`. */
  function Progress(t: real, duration: real): (pct: real)
    requires Truthy(duration)
    ensures duration > 0.0 && 0.0 <= t <= duration ==> 0.0 <= pct <= 100.0
    ensures t == duration ==> pct == 100.0
  {
    (t / duration) * 100.0
  }

  /** Seeking to a slider position and reading the progress back gives the position. */
  lemma ProgressOfSeekTarget(v: real, duration: real)
    requires Truthy(duration)
    ensures Progress(SeekTarget(v, duration), duration) == v
  {
    var t := SeekTarget(v, duration);
    assert t / duration == v / 100.0;
  }

  /** Reading the progress of a time and seeking to it lands on the same time. */
  lemma SeekTargetOfProgress(t: real, duration: real)
    requires Truthy(duration)
    ensures SeekTarget(Progress(t, duration), duration) == t
  {
    var pct := Progress(t, duration);
    assert pct / 100.0 == t / duration;
  }
}
