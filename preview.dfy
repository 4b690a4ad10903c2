/**
 * The preview page's video controller: a mirror of the video's playback state
 * (`isPlaying`, `currentTime`, `duration`, `playbackRate`), a hover flag and an
 * accumulated rotation, changed by the video's native events and by the
 * control bar's handlers.
 *
 * The mirror follows the video only through the native events: toggling play
 * asks the video to play or pause and leaves `isPlaying` to the `play` and
 * `pause` events that follow.
 */
module Preview {
  import opened Optional
  import opened JsNumbers
  import opened TimeLabel
  import opened Media

  datatype Direction = Left | Right

  /** The turn of one button: a quarter turn, clockwise for the right button. */
  function Delta(d: Direction): (delta: int)
    ensures delta == 90 || delta == -90
    ensures delta > 0 <==> d == Right
  {
    match d
    case Left => -90
    case Right => 90
  }

  /** The rotation reducer: `(prev + delta) % 360` with JavaScript's truncating `%`. */
  function Rotate(prev: int, d: Direction): (r: int)
    ensures -360 < r < 360
    ensures (prev + Delta(d) - r) % 360 == 0
  {
    IntRem(prev + Delta(d), 360)
  }

  /** A whole number of quarter turns strictly between -360 and 360 degrees. */
  predicate QuarterTurns(a: int)
  {
    -360 < a < 360 && a % 90 == 0
  }

  lemma RotatePreservesQuarterTurns(prev: int, d: Direction)
    requires QuarterTurns(prev)
    ensures QuarterTurns(Rotate(prev, d))
  {
    var a := prev + Delta(d);
    assert a % 90 == 0 && -360 <= a <= 360;
    // only a full turn either way is reduced; everything else is kept as it is
    if a == 360 || a == -360 {
      assert Rotate(prev, d) == 0;
    } else {
      assert Rotate(prev, d) == a;
    }
  }

  /** The rotation after applying the buttons pressed, in order. */
  function RotateAll(start: int, ds: seq<Direction>): int
    decreases |ds|
  {
    if ds == [] then start else RotateAll(Rotate(start, ds[0]), ds[1..])
  }

  /** Net quarter turns to the right. */
  function NetTurns(ds: seq<Direction>): int
    decreases |ds|
  {
    if ds == [] then 0 else Delta(ds[0]) / 90 + NetTurns(ds[1..])
  }

  /** Whatever buttons are pressed, the rotation stays a whole number of quarter turns in (-360, 360). */
  lemma {:induction false} RotationStaysQuarterTurns(start: int, ds: seq<Direction>)
    requires QuarterTurns(start)
    ensures QuarterTurns(RotateAll(start, ds))
    decreases |ds|
  {
    if ds != [] {
      RotatePreservesQuarterTurns(start, ds[0]);
      RotationStaysQuarterTurns(Rotate(start, ds[0]), ds[1..]);
    }
  }

  /** The rotation is the start plus 90 degrees per net right turn, modulo 360. */
  lemma {:induction false} RotationIsNetTurns(start: int, ds: seq<Direction>)
    ensures (start + 90 * NetTurns(ds) - RotateAll(start, ds)) % 360 == 0
    decreases |ds|
  {
    if ds != [] {
      var next := Rotate(start, ds[0]);
      RotationIsNetTurns(next, ds[1..]);
      var k1 := (start + Delta(ds[0]) - next) / 360;
      var k2 := (next + 90 * NetTurns(ds[1..]) - RotateAll(next, ds[1..])) / 360;
      assert start + Delta(ds[0]) - next == 360 * k1;
      assert next + 90 * NetTurns(ds[1..]) - RotateAll(next, ds[1..]) == 360 * k2;
      assert 90 * NetTurns(ds) == Delta(ds[0]) + 90 * NetTurns(ds[1..]);
      assert start + 90 * NetTurns(ds) - RotateAll(start, ds) == 360 * (k1 + k2);
    }
  }

  /** Four right turns come back to the starting angle modulo 360. */
  lemma FourRightTurns(start: int)
    ensures (RotateAll(start, [Right, Right, Right, Right]) - start) % 360 == 0
  {
    var ds := [Right, Right, Right, Right];
    var r := RotateAll(start, ds);
    RotationIsNetTurns(start, ds);
    assert NetTurns(ds) == 4 by {
      assert ds[1..] == [Right, Right, Right] && ds[2..] == [Right, Right] && ds[3..] == [Right];
    }
    FullTurnApart(start, r);
  }

  /** Angles that differ by a multiple of 360 after one adds a full turn already differed by one before. */
  lemma FullTurnApart(a: int, b: int)
    requires (a + 360 - b) % 360 == 0
    ensures (b - a) % 360 == 0
  {
    var k := (a + 360 - b) / 360;
    assert b - a == 360 * (1 - k);
  }

  /** ... but not always to the same number: from -90, four right turns give 270. */
  lemma FourRightTurnsFromMinus90()
    ensures RotateAll(-90, [Right, Right, Right, Right]) == 270
  {
    assert Rotate(-90, Right) == 0;
    assert Rotate(0, Right) == 90;
    assert Rotate(90, Right) == 180;
    assert Rotate(180, Right) == 270;
  }

  /** The speed selector's options, in order. */
  const SpeedOptions: seq<real> := [0.5, 1.0, 1.25, 1.5, 2.0]

  /** The slider's `max`: `duration || 100`. */
  function SeekMax(duration: real): (m: real)
    ensures duration > 0.0 ==> m == duration
    ensures duration == 0.0 ==> m == 100.0
  {
    if Truthy(duration) then duration else 100.0
  }

  /** The slider's filled share in percent; None where JavaScript yields NaN or Infinity (no duration yet). */
  function FillPercent(t: real, duration: real): (p: Option<real>)
    ensures p.Some? <==> Truthy(duration)
    ensures p.Some? ==> SeekTarget(p.value, duration) == t
  {
    if Truthy(duration) then
      SeekTargetOfProgress(t, duration);
      Some(Progress(t, duration))
    else
      None
  }

  /** The component's state, as one value. */
  datatype Mirror = Mirror(isPlaying: bool, currentTime: real, duration: real,
                           playbackRate: real, isVisible: bool, rotation: int)

  class PreviewController {
    /** `videoRef.current`; null when no video is mounted. */
    const video: Video?
    var isPlaying: bool
    var currentTime: real
    var duration: real
    var playbackRate: real
    var isVisible: bool
    var rotation: int

    function State(): Mirror
      reads this
    {
      Mirror(isPlaying, currentTime, duration, playbackRate, isVisible, rotation)
    }

    ghost predicate Valid()
      reads this
    {
      QuarterTurns(rotation)
    }

    /** The component mounts with its initial state. */
    constructor (video: Video?)
      ensures Valid() && this.video == video
      ensures State() == Mirror(false, 0.0, 0.0, 1.0, false, 0)
    {
      this.video := video;
      isPlaying := false;
      currentTime := 0.0;
      duration := 0.0;
      playbackRate := 1.0;
      isVisible := false;
      rotation := 0;
    }

    /** `timeupdate` on the video (listeners exist only for a mounted video). */
    method OnTimeUpdate()
      requires Valid() && video != null
      modifies this
      ensures Valid()
      ensures State() == old(State()).(currentTime := video.currentTime)
    {
      currentTime := video.currentTime;
    }

    /** `loadedmetadata` on the video. */
    method OnLoadedMetadata()
      requires Valid() && video != null
      modifies this
      ensures Valid()
      ensures State() == old(State()).(duration := video.duration)
    {
      duration := video.duration;
    }

    /** `play` on the video. */
    method OnPlay()
      requires Valid() && video != null
      modifies this
      ensures Valid()
      ensures State() == old(State()).(isPlaying := true)
      ensures BarFaded() <==> !isVisible
    {
      isPlaying := true;
    }

    /** `pause` on the video. */
    method OnPause()
      requires Valid() && video != null
      modifies this
      ensures Valid()
      ensures State() == old(State()).(isPlaying := false)
      ensures !BarFaded()
    {
      isPlaying := false;
    }

    /** `togglePlay`: pauses when the mirror says playing, plays otherwise; the mirror is left alone. */
    method TogglePlay()
      requires Valid()
      modifies video
      ensures Valid()
      ensures State() == old(State())
      ensures video != null ==> video.State() == old(video.State()).(paused := old(isPlaying))
    {
      if video != null {
        if isPlaying {
          video.Pause();
        } else {
          video.Play();
        }
      }
    }

    /** `handleSeek(value)`: the video and the mirror get the same time. */
    method HandleSeek(value: real)
      requires Valid()
      modifies this, video
      ensures Valid()
      ensures video == null ==> State() == old(State())
      ensures video != null ==> State() == old(State()).(currentTime := value)
      ensures video != null ==> video.State() == old(video.State()).(currentTime := value)
      ensures video != null ==> video.currentTime == currentTime
    {
      if video != null {
        video.currentTime := value;
        currentTime := value;
      }
    }

    /** `handleSpeed(rate)`: the video and the mirror get the same rate. */
    method HandleSpeed(rate: real)
      requires Valid()
      modifies this, video
      ensures Valid()
      ensures video == null ==> State() == old(State())
      ensures video != null ==> State() == old(State()).(playbackRate := rate)
      ensures video != null ==> video.State() == old(video.State()).(playbackRate := rate)
      ensures video != null ==> video.playbackRate == playbackRate
    {
      if video != null {
        video.playbackRate := rate;
        playbackRate := rate;
      }
    }

    /** Picking an option in the speed selector. */
    method SpeedSelected(choice: nat)
      requires Valid() && choice < |SpeedOptions|
      modifies this, video
      ensures Valid()
      ensures video != null ==> playbackRate == video.playbackRate == SpeedOptions[choice]
      ensures video != null ==> State() == old(State()).(playbackRate := SpeedOptions[choice])
      ensures video != null ==> video.State() == old(video.State()).(playbackRate := SpeedOptions[choice])
      ensures video == null ==> State() == old(State())
    {
      HandleSpeed(SpeedOptions[choice]);
    }

    /** A rotate button: the reducer runs whether or not a video is mounted. */
    method RotateButton(d: Direction)
      requires Valid()
      modifies this
      ensures Valid()
      ensures State() == old(State()).(rotation := Rotate(old(rotation), d))
    {
      RotatePreservesQuarterTurns(rotation, d);
      rotation := Rotate(rotation, d);
    }

    /** The pointer enters the bar. Nothing in the component ever clears the flag again. */
    method MouseEnter()
      requires Valid()
      modifies this
      ensures Valid()
      ensures State() == old(State()).(isVisible := true)
      ensures !BarFaded()
    {
      isVisible := true;
    }

    /** The icon on the play button follows the mirror. */
    function PlayButtonIcon(): (icon: PlayIcon)
      reads this
      ensures icon == ShowsPause <==> isPlaying
    {
      if isPlaying then ShowsPause else ShowsPlay
    }

    /** The bar fades out only while playing and not hovered. */
    predicate BarFaded()
      reads this
    {
      isPlaying && !isVisible
    }

    /** The time label: for a non-negative position it reads back as the whole seconds played. */
    function TimeText(): (text: string)
      reads this
      ensures currentTime >= 0.0 ==> ParseLabel(text) == Some(Floor(currentTime))
    {
      var text := FormatTime(currentTime);
      if currentTime >= 0.0 then FormatTimeRoundTrip(currentTime); text else text
    }
  }

  /**
   * A click on the play button of a paused video, followed by the native
   * `play` event it causes: the video plays and the mirror and icon follow.
   */
  method PlayClickScenario(v: Video)
    modifies v
  {
    var c := new PreviewController(v);
    assert c.PlayButtonIcon() == ShowsPlay;
    c.TogglePlay();
    assert !v.paused && !c.isPlaying;
    c.OnPlay();
    assert c.PlayButtonIcon() == ShowsPause;
    c.TogglePlay();
    assert v.paused;
    c.OnPause();
    assert c.PlayButtonIcon() == ShowsPlay;
  }
}
