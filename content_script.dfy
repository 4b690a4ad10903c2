/**
 * The in-page controller of the generated content script: the state its
 * handlers share (`isEnabled`, `activeVideo`, `isDragging`, the pending hide,
 * the shown flags of the controller bar and of the click blocker, and what was
 * last written into the bar's widgets) and one method per handler.
 *
 * Timers and frames are explicit calls: `StartHide` arms a single pending
 * hide, `FireHideTimer` is its timeout running, `Frame` is one run of the
 * `requestAnimationFrame` body.
 */
module ContentScript {
  import opened Optional
  import opened JsNumbers
  import opened TimeLabel
  import opened Media
  import opened Geometry
  import opened Settings
  import opened EventStop

  /** The values of the speed selector, in order; 1x is preselected. */
  const RateOptions: seq<real> := [0.5, 1.0, 1.5, 2.0, 3.0]

  datatype VolumeIcon = ShowsVolume | ShowsMute

  /** The play button shows pause exactly while the video plays. */
  function PlayIconFor(paused: bool): (icon: PlayIcon)
    ensures icon == ShowsPause <==> !paused
  {
    if paused then ShowsPlay else ShowsPause
  }

  /** A video counts as muted when it is muted or its volume is zero. */
  predicate SoundOff(v: VideoState)
  {
    v.muted || v.volume == 0.0
  }

  /** The volume button shows mute exactly while the sound is off. */
  function VolumeIconFor(v: VideoState): (icon: VolumeIcon)
    ensures icon == ShowsMute <==> SoundOff(v)
  {
    if SoundOff(v) then ShowsMute else ShowsVolume
  }

  /** Where `showAll` puts the controller bar for a video rectangle. */
  function BarPlacement(isThreads: bool, r: Rect): (p: Placement)
    ensures isThreads <==> p == Docked
    ensures !isThreads ==> p.Floating? && p.top + 10.0 == BlockerBox(r).top
  {
    ControllerAboveBlocker(r);
    if isThreads then Docked else FloatingPlacement(r)
  }

  /** The pointer scan of the `mousemove` handler: the first qualifying video, or null. */
  method FindVideo(videos: seq<Video>, x: real, y: real) returns (found: Video?)
    ensures found == SelectedVideo(videos, x, y)
  {
    found := null;
    for i := 0 to |videos|
      invariant found == null
      invariant forall j :: 0 <= j < i ==> !Qualifies(videos[j], x, y)
    {
      var v := videos[i];
      if !v.laidOut {
        continue;
      }
      var r := v.rect;
      if x >= r.left && x <= r.Right() && y >= r.top && y <= r.Bottom() {
        if r.width > MinSide && r.height > MinSide {
          found := v;
          assert FirstQualifyingFrom(videos, x, y, i) == Some(i);
          SkipNonQualifying(videos, x, y, 0, i);
          break;
        }
      }
    }
  }

  /** The search from `from` reaches `to` when nothing in between qualifies. */
  lemma {:induction false} SkipNonQualifying(videos: seq<Video>, x: real, y: real, from: nat, to: nat)
    requires from <= to < |videos|
    requires forall j :: from <= j < to ==> !Qualifies(videos[j], x, y)
    ensures FirstQualifyingFrom(videos, x, y, from) == FirstQualifyingFrom(videos, x, y, to)
    decreases (to as int) - (from as int)
  {
    if from < to {
      SkipNonQualifying(videos, x, y, from + 1, to);
    }
  }

  /** Everything the controller's handlers read and write, as one value. */
  datatype ControllerState = ControllerState(
    isEnabled: bool,
    hostShown: bool,
    activeVideo: Video?,
    isDragging: bool,
    hidePending: bool,
    shown: bool,
    blockerShown: bool,
    blocker: Box,
    bar: Placement,
    seekValue: real,
    timeText: string,
    playIcon: PlayIcon,
    volumeIcon: VolumeIcon)

  class Controller {
    const isInstagram: bool
    const isThreads: bool
    var isEnabled: bool
    /** `host.style.display` is `block`. */
    var hostShown: bool
    var activeVideo: Video?
    var isDragging: bool
    /** A `hideAll` timeout is scheduled and not cleared. */
    var hidePending: bool
    /** The bar carries the `show` class. */
    var shown: bool
    /** The blocker's `display` is `block`. */
    var blockerShown: bool
    var blocker: Box
    var bar: Placement
    var seekValue: real
    var timeText: string
    var playIcon: PlayIcon
    var volumeIcon: VolumeIcon

    function State(): ControllerState
      reads this
    {
      ControllerState(isEnabled, hostShown, activeVideo, isDragging, hidePending, shown,
                      blockerShown, blocker, bar, seekValue, timeText, playIcon, volumeIcon)
    }

    /**
     * The controller's invariant: the bar is only shown for an active video
     * while enabled; the blocker is shown exactly when the bar is shown off
     * Threads; while shown, the bar is docked on Threads and floating
     * elsewhere; the active video carries the overlay's listeners; the host is
     * displayed exactly when enabled; and a page on neither site stays enabled.
     */
    ghost predicate Valid()
      reads this, activeVideo
    {
      Consistent() && (shown ==> isEnabled)
    }

    /** Valid() without tying the shown bar to the enable switch (which `checkConfig` restores last). */
    ghost predicate Consistent()
      reads this, activeVideo
    {
      && (shown ==> activeVideo != null)
      && (blockerShown <==> shown && !isThreads)
      && (shown && isThreads ==> bar == Docked)
      && (shown && !isThreads ==> bar.Floating? && blocker.height == BlockerHeight)
      && (activeVideo != null ==> activeVideo.watched)
      && hostShown == isEnabled
      && (!isInstagram && !isThreads ==> isEnabled)
    }

    /** Start-up on a page with this host name: enabled, nothing active, the markup's initial widgets. */
    constructor (hostname: string)
      ensures Valid()
      ensures Profile(isInstagram, isThreads) == ProfileOf(hostname)
      ensures State() == ControllerState(true, true, null, false, false, false, false,
                                         Box(0.0, 0.0, 0.0, 0.0), Unplaced, 0.0, "0:00", ShowsPlay, ShowsVolume)
    {
      isInstagram := Includes(hostname, "instagram.com");
      isThreads := Includes(hostname, "threads");
      isEnabled := true;
      hostShown := true;
      activeVideo := null;
      isDragging := false;
      hidePending := false;
      shown := false;
      blockerShown := false;
      blocker := Box(0.0, 0.0, 0.0, 0.0);
      bar := Unplaced;
      seekValue := 0.0;
      timeText := "0:00";
      playIcon := ShowsPlay;
      volumeIcon := ShowsVolume;
    }

    /** `hideAll`: removes the bar's `show` class and hides the blocker. */
    method HideAll()
      requires Consistent()
      modifies this
      ensures Valid()
      ensures State() == old(State()).(shown := false, blockerShown := false)
    {
      shown := false;
      blockerShown := false;
    }

    /** `startHide(500)`: ignored while dragging; otherwise replaces any pending hide by a fresh one. */
    method StartHide()
      requires Valid()
      modifies this
      ensures Valid()
      ensures State() == if old(isDragging) then old(State()) else old(State()).(hidePending := true)
    {
      if isDragging {
        return;
      }
      hidePending := true;
    }

    /** The pending hide's timeout runs: it hides whatever the drag state is now. */
    method FireHideTimer()
      requires Valid()
      modifies this
      ensures Valid()
      ensures State() == if old(hidePending)
                         then old(State()).(hidePending := false, shown := false, blockerShown := false)
                         else old(State())
    {
      if hidePending {
        hidePending := false;
        HideAll();
      }
    }

    /** The pointer enters the bar: the pending hide is cleared. */
    method BarMouseEnter()
      requires Valid()
      modifies this
      ensures Valid()
      ensures State() == old(State()).(hidePending := false)
    {
      hidePending := false;
    }

    /** The pointer leaves the bar. */
    method BarMouseLeave()
      requires Valid()
      modifies this
      ensures Valid()
      ensures State() == if old(isDragging) then old(State()) else old(State()).(hidePending := true)
    {
      StartHide();
    }

    /** `checkConfig(settings)`, run on the stored settings at start-up and on every settings message. */
    method CheckConfig(s: SiteSettings)
      requires Valid()
      modifies this
      ensures Valid()
      ensures isEnabled == ConfiguredEnabled(Profile(isInstagram, isThreads), old(isEnabled), s)
      ensures State() == if isEnabled
                         then old(State()).(isEnabled := true, hostShown := true)
                         else old(State()).(isEnabled := false, hostShown := false,
                                            shown := false, blockerShown := false)
    {
      if isInstagram {
        isEnabled := SwitchOn(s.enableInstagram);
      } else if isThreads {
        isEnabled := SwitchOn(s.enableThreads);
      }
      hostShown := isEnabled;
      if !isEnabled {
        HideAll();
      }
    }

    /** `updateState`: the play and volume icons follow the active video. */
    method UpdateState()
      requires Valid()
      modifies this
      ensures Valid()
      ensures State() == if activeVideo == null then old(State())
                         else old(State()).(playIcon := PlayIconFor(activeVideo.paused),
                                            volumeIcon := VolumeIconFor(activeVideo.State()))
    {
      if activeVideo == null {
        return;
      }
      playIcon := PlayIconFor(activeVideo.paused);
      volumeIcon := VolumeIconFor(activeVideo.State());
    }

    /** `showAll`: cancels the pending hide, places bar and blocker for the active video and shows them. */
    method ShowAll()
      requires Valid() && isEnabled
      modifies this
      ensures Valid()
      ensures State() == if activeVideo == null then old(State())
                         else old(State()).(
                           hidePending := false,
                           shown := true,
                           blockerShown := !isThreads,
                           bar := BarPlacement(isThreads, activeVideo.rect),
                           blocker := if isThreads then old(blocker) else BlockerBox(activeVideo.rect),
                           playIcon := PlayIconFor(activeVideo.paused),
                           volumeIcon := VolumeIconFor(activeVideo.State()))
    {
      if activeVideo == null {
        return;
      }
      hidePending := false;
      var r := activeVideo.rect;
      if isThreads {
        bar := Docked;
        shown := true;
        blockerShown := false;
      } else {
        blocker := BlockerBox(r);
        blockerShown := true;
        bar := FloatingPlacement(r);
        shown := true;
      }
      UpdateState();
    }

    /**
     * The `mousemove` handler. Disabled: nothing happens. A qualifying video
     * under the pointer becomes the active video (its listeners are attached if
     * it was not already active) and the overlay is shown for it. No qualifying
     * video: a hide is requested and the active video stays as it was.
     */
    method MouseMove(videos: seq<Video>, x: real, y: real)
      requires Valid()
      modifies this, SelectedVideo(videos, x, y)
      ensures Valid()
      ensures var sel := old(SelectedVideo(videos, x, y));
              if !old(isEnabled) then
                State() == old(State()) && (sel != null ==> sel.State() == old(sel.State()))
              else if sel == null then
                State() == if old(isDragging) then old(State()) else old(State()).(hidePending := true)
              else
                && sel.State() == old(sel.State()).(watched := true)
                && State() == old(State()).(
                     activeVideo := sel,
                     hidePending := false,
                     shown := true,
                     blockerShown := !isThreads,
                     bar := BarPlacement(isThreads, sel.rect),
                     blocker := if isThreads then old(blocker) else BlockerBox(sel.rect),
                     playIcon := PlayIconFor(sel.paused),
                     volumeIcon := VolumeIconFor(sel.State()))
    {
      if !isEnabled {
        return;
      }
      var found := FindVideo(videos, x, y);
      if found != null {
        if activeVideo != found {
          activeVideo := found;
          found.watched := true;
          ShowAll();
        } else {
          ShowAll();
        }
      } else {
        StartHide();
      }
    }

    /** A `play`, `pause` or `volumechange` event on any video that ever was active. */
    method VideoEvent(v: Video)
      requires Valid() && v.watched
      modifies this
      ensures Valid()
      ensures State() == if activeVideo == null then old(State())
                         else old(State()).(playIcon := PlayIconFor(activeVideo.paused),
                                            volumeIcon := VolumeIconFor(activeVideo.State()))
    {
      UpdateState();
    }

    /** A click on the play button: stopped, then the active video toggles and the icons follow. */
    method PlayClick(targetTag: string) returns (effect: Effect)
      requires Valid()
      modifies this, activeVideo
      ensures Valid()
      ensures effect == Stop("click", targetTag) && !effect.preventDefault
      ensures activeVideo == old(activeVideo)
      ensures activeVideo == null ==> State() == old(State())
      ensures activeVideo != null ==>
                && activeVideo.State() == old(activeVideo.State()).(paused := !old(activeVideo.paused))
                && State() == old(State()).(playIcon := PlayIconFor(activeVideo.paused),
                                            volumeIcon := VolumeIconFor(activeVideo.State()))
                && playIcon == PlayIconFor(!old(activeVideo.paused))
    {
      effect := Stop("click", targetTag);
      if activeVideo != null {
        if activeVideo.paused {
          activeVideo.Play();
        } else {
          activeVideo.Pause();
        }
        UpdateState();
      }
    }

    /** A click on the volume button: unmute to full volume when muted or silent, else mute. */
    method VolumeClick(targetTag: string) returns (effect: Effect)
      requires Valid()
      modifies this, activeVideo
      ensures Valid()
      ensures effect == Stop("click", targetTag) && !effect.preventDefault
      ensures activeVideo == old(activeVideo)
      ensures activeVideo == null ==> State() == old(State())
      ensures activeVideo != null ==>
                && activeVideo.State() == ToggleSound(old(activeVideo.State()))
                && State() == old(State()).(playIcon := PlayIconFor(activeVideo.paused),
                                            volumeIcon := VolumeIconFor(activeVideo.State()))
    {
      effect := Stop("click", targetTag);
      if activeVideo != null {
        var m := activeVideo.muted || activeVideo.volume == 0.0;
        if m {
          activeVideo.muted := false;
          activeVideo.volume := 1.0;
        } else {
          activeVideo.muted := true;
        }
        UpdateState();
      }
    }

    /** A choice in the speed selector applies that option's rate to the active video. */
    method RateChange(choice: nat)
      requires Valid() && choice < |RateOptions|
      modifies activeVideo
      ensures Valid()
      ensures State() == old(State())
      ensures activeVideo != null ==>
                activeVideo.State() == old(activeVideo.State()).(playbackRate := RateOptions[choice])
    {
      if activeVideo != null {
        activeVideo.playbackRate := RateOptions[choice];
      }
    }

    /**
     * A press on the speed selector: only ordinary propagation is stopped, so
     * the select still opens; nothing else changes.
     */
    method RateMouseDown() returns (effect: Effect)
      ensures effect.stopPropagation && !effect.stopImmediatePropagation && !effect.preventDefault
    {
      effect := Effect(true, false, false);
    }

    /** The seek slider moves to v (0 to 100): a drag is in progress and, when the length is known, the video jumps. */
    method SeekInput(v: real)
      requires Valid()
      modifies this, activeVideo
      ensures Valid()
      ensures State() == old(State()).(isDragging := true)
      ensures activeVideo != null ==>
                activeVideo.State() == if Truthy(old(activeVideo.duration))
                                       then old(activeVideo.State()).(currentTime := SeekTarget(v, old(activeVideo.duration)))
                                       else old(activeVideo.State())
    {
      isDragging := true;
      if activeVideo != null && Truthy(activeVideo.duration) {
        activeVideo.currentTime := SeekTarget(v, activeVideo.duration);
      }
    }

    /** The seek slider is released: the drag ends and the video plays. */
    method SeekChange()
      requires Valid()
      modifies this, activeVideo
      ensures Valid()
      ensures State() == old(State()).(isDragging := false)
      ensures activeVideo != null ==> activeVideo.State() == old(activeVideo.State()).(paused := false)
    {
      isDragging := false;
      if activeVideo != null {
        activeVideo.Play();
      }
    }

    /** A press on the seek slider: stopped (not cancelled, the target is the slider) and the video pauses. */
    method SeekMouseDown(targetTag: string) returns (effect: Effect)
      requires Valid()
      modifies activeVideo
      ensures Valid()
      ensures effect == Stop("mousedown", targetTag)
      ensures State() == old(State())
      ensures activeVideo != null ==> activeVideo.State() == old(activeVideo.State()).(paused := true)
    {
      effect := Stop("mousedown", targetTag);
      if activeVideo != null {
        activeVideo.Pause();
      }
    }

    /**
     * One animation frame. Only while enabled with an active video and the bar
     * shown: the native controls attribute is removed; off Threads the blocker
     * and bar follow the video's current rectangle; and unless a drag is in
     * progress or the length is unknown, the slider and label show the position.
     */
    method Frame()
      requires Valid()
      modifies this, activeVideo
      ensures Valid()
      ensures activeVideo == old(activeVideo)
      ensures !old(isEnabled && activeVideo != null && shown) ==>
                State() == old(State()) && (activeVideo != null ==> activeVideo.State() == old(activeVideo.State()))
      ensures old(isEnabled && activeVideo != null && shown) ==>
                && activeVideo.State() == old(activeVideo.State()).(hasControls := false)
                && State() == FrameState(old(State()), isThreads, activeVideo.State())
    {
      if isEnabled && activeVideo != null && shown {
        var v := activeVideo;
        if v.hasControls {
          v.hasControls := false;
        }
        if !isThreads {
          FollowRect(v.rect);
        }
        var d := v.duration;
        if Truthy(d) && !isDragging {
          ShowPosition(v.currentTime, d);
        }
      }
    }

    /** The frame's repositioning off Threads: blocker top, left and width, and the bar, from the rectangle. */
    method FollowRect(r: Rect)
      requires Valid() && shown && !isThreads
      modifies this
      ensures Valid()
      ensures State() == old(State()).(blocker := BlockerBox(r), bar := FloatingPlacement(r))
    {
      var b := BlockerBox(r);
      blocker := blocker.(top := b.top, left := b.left, width := b.width);
      bar := FloatingPlacement(r);
    }

    /** The frame's slider and label update for position t of a video of known length d. */
    method ShowPosition(t: real, d: real)
      requires Valid() && Truthy(d)
      modifies this
      ensures Valid()
      ensures State() == old(State()).(seekValue := Progress(t, d), timeText := FormatTime(t))
    {
      seekValue := Progress(t, d);
      timeText := FormatTime(t);
    }
  }

  /** The mute toggle of the volume button. */
  function ToggleSound(v: VideoState): (w: VideoState)
    ensures SoundOff(w) == !SoundOff(v)
    ensures !SoundOff(w) ==> w.volume == 1.0
    ensures SoundOff(w) ==> w.volume == v.volume
    ensures w.(muted := v.muted, volume := v.volume) == v
  {
    if SoundOff(v) then v.(muted := false, volume := 1.0) else v.(muted := true)
  }

  /** The controller after a frame in which it is shown for a video in state v. */
  function FrameState(c: ControllerState, isThreads: bool, v: VideoState): (f: ControllerState)
    ensures !isThreads ==> f.blocker == BlockerBox(v.rect) && f.bar == FloatingPlacement(v.rect)
    ensures Truthy(v.duration) && !c.isDragging ==> SeekTarget(f.seekValue, v.duration) == v.currentTime
    ensures Truthy(v.duration) && !c.isDragging && v.currentTime >= 0.0 ==>
              ParseLabel(f.timeText) == Some(Floor(v.currentTime))
    ensures !Truthy(v.duration) || c.isDragging ==> f.seekValue == c.seekValue && f.timeText == c.timeText
    ensures isThreads ==> f.blocker == c.blocker && f.bar == c.bar
    ensures f.(blocker := c.blocker, bar := c.bar, seekValue := c.seekValue, timeText := c.timeText) == c
  {
    var c' := if isThreads then c else c.(blocker := BlockerBox(v.rect), bar := FloatingPlacement(v.rect));
    if Truthy(v.duration) && !c.isDragging then
      PositionReadsBack(v.currentTime, v.duration);
      c'.(seekValue := Progress(v.currentTime, v.duration), timeText := FormatTime(v.currentTime))
    else
      c'
  }

  /** The slider value maps back to the position, and the label to its whole seconds. */
  lemma PositionReadsBack(t: real, d: real)
    requires Truthy(d)
    ensures SeekTarget(Progress(t, d), d) == t
    ensures t >= 0.0 ==> ParseLabel(FormatTime(t)) == Some(Floor(t))
  {
    SeekTargetOfProgress(t, d);
    if t >= 0.0 {
      FormatTimeRoundTrip(t);
    }
  }

  /** With a single video on the page, it is selected exactly when it qualifies. */
  lemma SingleVideoSelection(v: Video, x: real, y: real)
    ensures SelectedVideo([v], x, y) == if Qualifies(v, x, y) then v else null
  {
    if Qualifies(v, x, y) {
      assert Selected([v], x, y) == Some(0);
    }
  }
}
