/**
 * Which video the pointer selects, and where the overlay goes for it.
 *
 * Selection: the first video, in document order, that is laid out, whose
 * closed bounding box holds the pointer, and whose box is wider and taller
 * than 100 pixels.
 *
 * Placement: on Threads the controller is docked to the viewport (30 px from
 * the bottom, horizontally centred) and the click blocker is hidden; elsewhere
 * the controller floats 70 px above the video's bottom edge, centred on the
 * video, and the "surgical" blocker covers the middle 40% of the video's width
 * in a 50 px band whose top is 60 px above the video's bottom edge.
 */
module Geometry {
  import opened Media
  import opened Optional

  /** Both sides of the video must exceed this many pixels. */
  const MinSide: real := 100.0

  /** A box written to an element's style: left, top, width and height in pixels. */
  datatype Box = Box(left: real, top: real, width: real, height: real)

  /** Where the controller bar sits. */
  datatype Placement =
    | Unplaced
      /** `position: fixed; bottom: 30px; left: 50%` */
    | Docked
      /** `position: absolute` at this top and centre (translateX(-50%)) */
    | Floating(top: real, centre: real)

  const BlockerHeight: real := 50.0
  const BlockerRise: real := 60.0
  const ControllerRise: real := 70.0

  /** The selection rule for one video and one pointer position. */
  predicate Qualifies(v: Video, x: real, y: real)
    reads v
  {
    v.laidOut && v.rect.Contains(x, y) && v.rect.width > MinSide && v.rect.height > MinSide
  }

  /** The index of the first qualifying video at or after index `from`. */
  function FirstQualifyingFrom(videos: seq<Video>, x: real, y: real, from: nat): (r: Option<nat>)
    requires from <= |videos|
    reads videos
    ensures r.Some? ==> from <= r.value < |videos| && Qualifies(videos[r.value], x, y)
    ensures r.Some? ==> forall j :: from <= j < r.value ==> !Qualifies(videos[j], x, y)
    ensures r.None? ==> forall j :: from <= j < |videos| ==> !Qualifies(videos[j], x, y)
    decreases |videos| - from
  {
    if from == |videos| then None
    else if Qualifies(videos[from], x, y) then Some(from)
    else FirstQualifyingFrom(videos, x, y, from + 1)
  }

  /** The index of the selected video, if any. */
  function Selected(videos: seq<Video>, x: real, y: real): (r: Option<nat>)
    reads videos
    ensures r.Some? ==> r.value < |videos| && Qualifies(videos[r.value], x, y)
    ensures r.Some? ==> forall j :: 0 <= j < r.value ==> !Qualifies(videos[j], x, y)
    ensures r.None? <==> forall j :: 0 <= j < |videos| ==> !Qualifies(videos[j], x, y)
  {
    FirstQualifyingFrom(videos, x, y, 0)
  }

  /** The selected video itself, or null. */
  function SelectedVideo(videos: seq<Video>, x: real, y: real): (v: Video?)
    reads videos
    ensures v != null ==> v in videos && Qualifies(v, x, y)
    ensures v == null <==> forall j :: 0 <= j < |videos| ==> !Qualifies(videos[j], x, y)
  {
    match Selected(videos, x, y)
    case Some(i) => videos[i]
    case None => null
  }

  /** A video that is not laid out, or whose side is 100 px or less, is never selected. */
  lemma NeverSelectsSmallOrHidden(videos: seq<Video>, x: real, y: real, v: Video)
    requires !v.laidOut || v.rect.width <= MinSide || v.rect.height <= MinSide
    ensures SelectedVideo(videos, x, y) != v
  {
  }

  /** Any qualifying video at index i forces a selection at an index no later than i. */
  lemma SelectionNoLaterThan(videos: seq<Video>, x: real, y: real, i: nat)
    requires i < |videos| && Qualifies(videos[i], x, y)
    ensures Selected(videos, x, y).Some? && Selected(videos, x, y).value <= i
  {
  }

  /** The surgical blocker for a video rectangle. */
  function BlockerBox(r: Rect): (b: Box)
    ensures b.width == 0.4 * r.width && b.height == BlockerHeight
    ensures b.left == r.left + 0.3 * r.width
    ensures b.top == r.Bottom() - BlockerRise
    // it leaves 30% of the width free on each side
    ensures b.left - r.left == r.Right() - (b.left + b.width) == 0.3 * r.width
  {
    Box(r.left + r.width * 0.3, r.Bottom() - BlockerRise, r.width * 0.4, BlockerHeight)
  }

  /** The floating controller position for a video rectangle. */
  function FloatingPlacement(r: Rect): (p: Placement)
    ensures p.Floating? && p.top == r.Bottom() - ControllerRise
    ensures p.Floating? && p.centre == r.left + r.width / 2.0
  {
    Floating(r.Bottom() - ControllerRise, r.left + (r.width / 2.0))
  }

  /** Blocker and floating controller share the video's vertical centre line. */
  lemma BlockerCentredUnderController(r: Rect)
    ensures BlockerBox(r).left + BlockerBox(r).width / 2.0 == FloatingPlacement(r).centre
  {
  }

  /**
   * For a video that can be selected (both sides above 100 px) the blocker lies
   * strictly inside the video's rectangle: it never reaches the 30% strips at
   * either side, the area above it, or the bottom 10 px.
   */
  lemma BlockerInsideSelectableVideo(r: Rect)
    requires r.width > MinSide && r.height > MinSide
    ensures var b := BlockerBox(r);
            r.left < b.left && b.left + b.width < r.Right() &&
            r.top < b.top && b.top + b.height < r.Bottom()
  {
  }

  /** The controller bar floats above the blocker band: 10 px higher, at the same centre. */
  lemma ControllerAboveBlocker(r: Rect)
    ensures FloatingPlacement(r).top + 10.0 == BlockerBox(r).top
  {
  }
}
