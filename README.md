# Threads Video Pro controllers in Dafny

This project models the two video controllers of Threads Video Pro.

- **The content-script controller** is the overlay that the browser extension
  injects into Threads and Instagram pages. A pointer move selects the first
  qualifying video under the pointer. The controller bar and, on Instagram, a
  "surgical" click blocker are then placed over that video. The bar's buttons
  play, pause, mute, change speed and seek. A pending hide takes the overlay
  away after the pointer leaves. A per-frame body keeps the bar, the blocker,
  the seek slider and the `m:ss` label in step with the video. Per-site
  switches, stored by the extension popup, turn the overlay on and off.
- **The preview controller** is the React component of the landing page. It
  mirrors a video's playback state (`isPlaying`, `currentTime`, `duration`,
  `playbackRate`), tracks a hover flag, and keeps a rotation angle changed by
  two rotate buttons.

Modules, one per file:

| module | file | contents |
|---|---|---|
| `Optional` | option.dfy | `Option` |
| `JsNumbers` | js_numbers.dfy | `Math.floor`, JavaScript's truncating `%`, `toString()` of integers, `padStart(2, '0')` |
| `TimeLabel` | time_label.dfy | the `m:ss` label both controllers show, and a parser that reads it back |
| `Media` | media.dfy | the video element (a class: the controllers compare videos by identity and write to them), the slider-to-time and time-to-percent maps |
| `Geometry` | geometry.dfy | the selection rule, the first-match scan as a function, blocker and bar placement |
| `Settings` | settings.dfy | stored switches, host detection, `checkConfig`'s decision, the popup's load and save |
| `EventStop` | event_stop.dfy | the `stop` handler's decision |
| `ContentScript` | content_script.dfy | class `Controller`: the content script's shared variables and one method per handler; the scan loop `FindVideo` |
| `Scenarios` | scenarios.dfy | short event sequences run against `Controller` |
| `Preview` | preview.dfy | the rotation reducer and class `PreviewController` |

Every `Controller` method states its whole new state. It writes
`State() == old(State()).(field := ...)`, where `State()` is a snapshot
datatype. It also keeps the invariant `Valid()`:

- the bar is only shown for an active video while the page is enabled;
- the blocker is shown exactly when the bar is shown off Threads;
- while shown, the bar is docked on Threads and floating elsewhere;
- the active video carries the overlay's listeners;
- the host element is displayed exactly when the page is enabled;
- a page on neither site stays enabled.

Timers and frames become explicit calls. `StartHide` arms the single pending
hide (`hidePending`). `FireHideTimer` is that timeout running. `Frame` is one
run of the `requestAnimationFrame` body.

The model follows the code in four places where the code does less than one
might expect from the extension's description:

- A hide that is already pending still runs if a seek drag starts after it
  was armed. Only *requesting* a hide checks `isDragging`.
  `Scenarios.PendingHideRunsDuringDrag` steps through this case.
- When another video becomes active, the listeners on the old video are never
  removed. `Controller.VideoEvent` accepts events from every video that was
  ever active.
- The content script offers the speeds {0.5, 1, 1.5, 2, 3}. The preview
  offers {0.5, 1, 1.25, 1.5, 2}.
- The preview's rotate buttons change the rotation even when no video is
  mounted. Every other preview action does nothing without a video.

## Model

| member | source | states |
|---|---|---|
| JsNumbers.Floor | components/VideoController.tsx:85-86 | `Math.floor`: the result is the greatest integer not above x |
| JsNumbers.Trunc | components/VideoController.tsx:86 | the quotient JavaScript's `%` truncates to: Floor of a non-negative number, minus Floor of minus a negative one; never larger in magnitude than x, and less than 1 away from it toward zero |
| JsNumbers.RealRem | components/VideoController.tsx:86 | `%` on numbers: the remainder has the dividend's sign, is smaller than n in magnitude, and a minus it is n times the truncated quotient |
| JsNumbers.IntRem | components/VideoController.tsx:70 | `%` on integers truncates toward zero: the remainder has the dividend's sign, is smaller than n in magnitude, and a minus it is n times the truncated quotient |
| JsNumbers.NatToString | components/VideoController.tsx:87 | `toString()` of a non-negative integer is a non-empty run of decimal digits, a single digit exactly when n < 10, with no leading zero otherwise |
| JsNumbers.IntToString | utils/extensionGenerator.ts:503 | `toString()` of an integer: the digits of n, with a leading '-' when n is negative |
| JsNumbers.NatToStringRoundTrip | components/VideoController.tsx:87 | reading the printed digits back gives the number |
| JsNumbers.PadStart2 | utils/extensionGenerator.ts:503 | `padStart(2, '0')`: a string of two or more characters is unchanged, one character gets one leading zero, the empty string becomes "00" |
| TimeLabel.Minutes | components/VideoController.tsx:85 | `Math.floor(t / 60)`: the whole minutes, 60 * m <= t < 60 * m + 60 |
| TimeLabel.Seconds | components/VideoController.tsx:86 | `Math.floor(t % 60)`: in [0, 59] for a non-negative position, in [-60, 0] for a negative one |
| TimeLabel.FormatTime | components/VideoController.tsx:84-88 | the `m:ss` label of both controllers; what it means is stated by FormatTimeRoundTrip (it reads back as the whole seconds) and SecondsFieldTwoDigits (two-digit seconds below 60) |
| TimeLabel.FieldsSplitWholeSeconds | components/VideoController.tsx:84-88 | for t >= 0 the minutes are >= 0, the seconds are in [0, 59], and 60 * minutes + seconds is the whole seconds of t |
| TimeLabel.PaddedSeconds | utils/extensionGenerator.ts:502-503 | a seconds value below 60, printed and padded, is exactly two digits that read back as that value |
| TimeLabel.LabelOfFields | utils/extensionGenerator.ts:501-503 | the printed minutes and padded seconds read back as 60 * minutes + seconds |
| TimeLabel.FormatTimeRoundTrip | components/VideoController.tsx:84-88 | for t >= 0 the label reads back as the whole seconds of t, so it loses nothing but the fraction |
| TimeLabel.SecondsFieldTwoDigits | components/VideoController.tsx:86-87 | for t >= 0 the label ends in ':' and exactly two digits whose value is the seconds, below 60 |
| TimeLabel.StartLabel | utils/extensionGenerator.ts:277 | the label at position 0 is "0:00", the label the bar's markup starts with |
| Media.Video.Play | utils/extensionGenerator.ts:345 | `play()` clears `paused` and changes nothing else |
| Media.Video.Pause | utils/extensionGenerator.ts:345 | `pause()` sets `paused` and changes nothing else |
| Media.Truthy | utils/extensionGenerator.ts:367 | JavaScript truthiness of a duration: a known length is one that is not zero |
| Media.SeekTarget | utils/extensionGenerator.ts:368 | a slider value in [0, 100] maps into [0, duration]; 0 maps to the start and 100 to the end |
| Media.Progress | utils/extensionGenerator.ts:497 | a position within the duration is a percentage in [0, 100]; the end is 100 |
| Media.ProgressOfSeekTarget | utils/extensionGenerator.ts:368 | seeking to a slider value and reading the progress back gives the slider value |
| Media.SeekTargetOfProgress | utils/extensionGenerator.ts:497 | the progress of a position, used as a seek target, lands on that position |
| Geometry.Qualifies | utils/extensionGenerator.ts:388-393 | the selection rule: laid out, pointer within the closed rectangle, both sides above 100 px; its consequences are NeverSelectsSmallOrHidden and SelectionNoLaterThan |
| Geometry.FirstQualifyingFrom | utils/extensionGenerator.ts:386-398 | the scan from index `from` returns a qualifying index with no qualifying video before it, or None exactly when nothing from `from` on qualifies |
| Geometry.Selected | utils/extensionGenerator.ts:386-398 | the selected index is the first qualifying video in document order; None exactly when no video qualifies |
| Geometry.SelectedVideo | utils/extensionGenerator.ts:386-398 | the selected video is one of the page's videos and qualifies; null exactly when none qualifies |
| Geometry.NeverSelectsSmallOrHidden | utils/extensionGenerator.ts:388-393 | a video that is not laid out, or has a side of 100 px or less, is never selected |
| Geometry.SelectionNoLaterThan | utils/extensionGenerator.ts:386-398 | any qualifying video forces a selection at its index or earlier |
| Geometry.BlockerBox | utils/extensionGenerator.ts:440-447 | the blocker is 40% of the video's width at a 30% offset, 50 px tall, with its top 60 px above the video's bottom, leaving 30% free on each side |
| Geometry.FloatingPlacement | utils/extensionGenerator.ts:450-451 | the floating bar's top is 70 px above the video's bottom and its centre is the video's horizontal centre |
| Geometry.BlockerCentredUnderController | utils/extensionGenerator.ts:440-451 | blocker and floating bar share the video's vertical centre line |
| Geometry.BlockerInsideSelectableVideo | utils/extensionGenerator.ts:440-447 | for a selectable video (both sides above 100 px) the blocker lies strictly inside the video's rectangle |
| Geometry.ControllerAboveBlocker | utils/extensionGenerator.ts:446-450 | the floating bar's top is 10 px above the blocker's top |
| Settings.SwitchOn | utils/extensionGenerator.ts:311 | `value !== false`: a stored switch is on unless it is the boolean false; ConfiguredEnabled and PopupLoad read switches this way |
| Settings.Includes | utils/extensionGenerator.ts:118-119 | `s.includes(sub)` holds exactly when `sub` occurs in `s` at some index |
| Settings.ProfileOf | utils/extensionGenerator.ts:118-119 | the Instagram flag holds exactly when the host contains "instagram.com", the Threads flag exactly when it contains "threads" |
| Settings.KnownHosts | utils/extensionGenerator.ts:118-119 | www.instagram.com raises the Instagram flag and www.threads.net the Threads flag |
| Settings.ConfiguredEnabled | utils/extensionGenerator.ts:309-314 | an Instagram host follows the Instagram switch; otherwise a Threads host follows the Threads switch; any other host keeps its current value; a switch is on unless stored as `false` |
| Settings.MissingMeansEnabled | utils/extensionGenerator.ts:311-313 | on either site, a switch that was never stored means enabled |
| Settings.PopupLoad | utils/extensionGenerator.ts:82-85 | each popup checkbox is ticked unless its switch is stored as `false` |
| Settings.PopupSave | utils/extensionGenerator.ts:89-92 | the popup stores both switches as booleans |
| Settings.PopupRoundTrip | utils/extensionGenerator.ts:82-92 | what the popup saves, it loads back unchanged |
| Settings.PopupAgreesWithContentScript | utils/extensionGenerator.ts:82-85 | the popup's checkbox and the content script's decision agree on any stored record for the page's site |
| Settings.SavedToggleGovernsPage | utils/extensionGenerator.ts:309-314 | after a popup save, a page on either site is enabled exactly when its checkbox is ticked |
| EventStop.Stop | utils/extensionGenerator.ts:326-332 | `stop` always stops both kinds of propagation, and cancels the default action exactly for a `mousedown` whose target is neither SELECT nor INPUT |
| EventStop.BlockerCatches | utils/extensionGenerator.ts:334-337 | the four events the blocker has handlers for: click, mousedown, mouseup, dblclick |
| EventStop.AtBlocker | utils/extensionGenerator.ts:334-337 | an event at the blocker: `stop` for the four wired events, nothing otherwise; stated by BlockerContract |
| EventStop.BlockerContract | utils/extensionGenerator.ts:334-337 | the blocker stops click, mousedown, mouseup and dblclick; it cancels only the press; every other event passes through |
| EventStop.SliderPressKeepsDefault | utils/extensionGenerator.ts:375 | a press on the seek slider is stopped but not cancelled |
| ContentScript.FindVideo | utils/extensionGenerator.ts:384-398 | the scan loop with `continue` and `break` returns exactly the selected video |
| ContentScript.SingleVideoSelection | utils/extensionGenerator.ts:386-398 | on a page with one video, it is selected exactly when it qualifies |
| ContentScript.Controller.constructor | utils/extensionGenerator.ts:117-119 | start-up: enabled, the host flags come from the host name, no active video, no drag, nothing pending or shown, the label "0:00" |
| ContentScript.Controller.HideAll | utils/extensionGenerator.ts:465-468 | clears the bar's shown flag and the blocker and nothing else |
| ContentScript.Controller.StartHide | utils/extensionGenerator.ts:459-463 | does nothing while dragging; otherwise leaves exactly one hide pending |
| ContentScript.Controller.FireHideTimer | utils/extensionGenerator.ts:462 | a pending hide hides bar and blocker whatever the drag state is now; without one nothing changes |
| ContentScript.Controller.BarMouseEnter | utils/extensionGenerator.ts:339 | entering the bar cancels the pending hide |
| ContentScript.Controller.BarMouseLeave | utils/extensionGenerator.ts:340 | leaving the bar requests a hide, ignored while dragging |
| ContentScript.Controller.CheckConfig | utils/extensionGenerator.ts:309-317 | `isEnabled` becomes `ConfiguredEnabled`; the host is displayed exactly when enabled; a disabled page hides bar and blocker |
| ContentScript.PlayIconFor | utils/extensionGenerator.ts:472 | the play button shows pause exactly while the video is not paused |
| ContentScript.SoundOff | utils/extensionGenerator.ts:473 | a video counts as muted when it is muted or its volume is 0 |
| ContentScript.VolumeIconFor | utils/extensionGenerator.ts:474 | the volume button shows mute exactly while the sound is off |
| ContentScript.BarPlacement | utils/extensionGenerator.ts:422-451 | the bar is docked exactly on Threads; elsewhere it floats 10 px above the blocker |
| ContentScript.Controller.UpdateState | utils/extensionGenerator.ts:470-475 | the play icon follows `paused`, the volume icon shows mute when muted or at volume 0 |
| ContentScript.Controller.ShowAll | utils/extensionGenerator.ts:415-457 | cancels the pending hide and shows the bar; on Threads the bar is docked and the blocker hidden; elsewhere the blocker and floating bar are placed from the video's rectangle and shown; the icons follow the video |
| ContentScript.Controller.MouseMove | utils/extensionGenerator.ts:378-413 | disabled: nothing changes; a selected video becomes active, gets the listeners and the overlay is shown for it; no selection: a hide is requested and the active video stays |
| ContentScript.Controller.VideoEvent | utils/extensionGenerator.ts:403-405 | a play, pause or volumechange event on any video that was ever active refreshes the icons from the active video |
| ContentScript.Controller.PlayClick | utils/extensionGenerator.ts:342-348 | the click is stopped and not cancelled; the active video's `paused` flips and the play icon shows the new state |
| ContentScript.Controller.VolumeClick | utils/extensionGenerator.ts:350-358 | the click is stopped; the active video's sound flips between off and on (`ToggleSound`) and the icons follow |
| ContentScript.ToggleSound | utils/extensionGenerator.ts:353-355 | muted or silent becomes unmuted at volume 1, otherwise muted with the volume kept: sound-off flips, and every other field of the video stays |
| ContentScript.Controller.RateChange | utils/extensionGenerator.ts:360-362 | the chosen option's rate is applied to the active video; the controller is unchanged |
| ContentScript.Controller.RateMouseDown | utils/extensionGenerator.ts:363 | a press on the speed selector stops ordinary propagation only: neither immediate propagation nor the default action, so the select still opens |
| ContentScript.Controller.SeekInput | utils/extensionGenerator.ts:365-370 | a drag is in progress; with a known length the video jumps to `SeekTarget(v, duration)`, otherwise it is untouched |
| ContentScript.Controller.SeekChange | utils/extensionGenerator.ts:371-374 | the drag ends and the active video plays |
| ContentScript.Controller.SeekMouseDown | utils/extensionGenerator.ts:375 | the press is stopped (and, on the slider, not cancelled) and the active video pauses |
| ContentScript.Controller.Frame | utils/extensionGenerator.ts:477-507 | only while enabled and shown for an active video: the native controls go away and the controller becomes `FrameState`; otherwise nothing changes |
| ContentScript.FrameState | utils/extensionGenerator.ts:481-504 | off Threads, blocker and bar follow the current rectangle; with a known length and no drag, the slider maps back to the position and the label reads back as its whole seconds; otherwise slider and label keep their values; on Threads blocker and bar stay, and no other field changes |
| ContentScript.Controller.FollowRect | utils/extensionGenerator.ts:485-493 | the frame's repositioning sets the blocker box and floating bar from the rectangle |
| ContentScript.Controller.ShowPosition | utils/extensionGenerator.ts:496-504 | the slider gets the progress percentage and the label the `m:ss` text |
| ContentScript.PositionReadsBack | utils/extensionGenerator.ts:496-503 | the slider value maps back to the position and the label to its whole seconds |
| Preview.Delta | components/VideoController.tsx:69 | one press is a quarter turn, clockwise exactly for the right button |
| Preview.Rotate | components/VideoController.tsx:67-72 | `(prev ± 90) % 360` lies in (-360, 360) and is congruent to prev ± 90 modulo 360 |
| Preview.RotatePreservesQuarterTurns | components/VideoController.tsx:67-72 | one button press keeps the angle a multiple of 90 in (-360, 360) |
| Preview.RotationStaysQuarterTurns | components/VideoController.tsx:67-72 | starting from a quarter-turn angle such as the initial 0, any sequence of presses keeps it one |
| Preview.RotationIsNetTurns | components/VideoController.tsx:67-72 | after any presses the angle is the start plus 90 per net right turn, modulo 360 |
| Preview.FourRightTurns | components/VideoController.tsx:67-72 | four right turns give an angle congruent to the start modulo 360 |
| Preview.FourRightTurnsFromMinus90 | components/VideoController.tsx:67-72 | congruent but not always equal: from -90, four right turns give 270 |
| Preview.SeekMax | components/VideoController.tsx:118 | the slider's maximum is the duration once known, 100 before |
| Preview.FillPercent | components/VideoController.tsx:123 | the fill is defined exactly when the duration is known, and it maps back to the position |
| Preview.PreviewController.constructor | components/VideoController.tsx:9-14 | the mirror starts paused at 0, duration 0, rate 1, not hovered, unrotated |
| Preview.PreviewController.OnTimeUpdate | components/VideoController.tsx:20 | `timeupdate` copies the video's position into the mirror |
| Preview.PreviewController.OnLoadedMetadata | components/VideoController.tsx:21 | `loadedmetadata` copies the video's duration into the mirror |
| Preview.PreviewController.OnPlay | components/VideoController.tsx:22 | the `play` event sets `isPlaying` and nothing else; the bar then fades exactly when not hovered |
| Preview.PreviewController.OnPause | components/VideoController.tsx:23 | the `pause` event clears `isPlaying` and nothing else; the bar is then not faded |
| Preview.PreviewController.TogglePlay | components/VideoController.tsx:45-50 | the video pauses when the mirror says playing and plays otherwise; the mirror itself is unchanged; no video, no effect |
| Preview.PreviewController.HandleSeek | components/VideoController.tsx:52-58 | video and mirror get the same position; no video, no effect |
| Preview.PreviewController.HandleSpeed | components/VideoController.tsx:60-65 | video and mirror get the same rate; no video, no effect |
| Preview.PreviewController.SpeedSelected | components/VideoController.tsx:138-147 | picking an option applies one of 0.5, 1, 1.25, 1.5, 2 to video and mirror alike; nothing else in either changes |
| Preview.PreviewController.RotateButton | components/VideoController.tsx:129-134 | a rotate button applies the reducer and keeps the angle a quarter turn, with or without a video |
| Preview.PreviewController.MouseEnter | components/VideoController.tsx:93 | hovering the bar sets the visible flag and nothing else, so the bar is not faded; no member clears the flag again |
| Preview.PreviewController.BarFaded | components/VideoController.tsx:98 | the bar fades only while playing and not hovered; OnPlay, OnPause and MouseEnter state when it does |
| Preview.PreviewController.PlayButtonIcon | components/VideoController.tsx:105 | the button shows pause exactly while the mirror says playing |
| Preview.PreviewController.TimeText | components/VideoController.tsx:110 | the label of a non-negative position reads back as its whole seconds |

## Left out

- Building the page: the shadow root, CSS text, SVG icons, `innerHTML` templates, the manifest and the popup HTML are constant strings with no logic.
- Extension APIs: `chrome.storage.sync` and `chrome.runtime.onMessage` become parameters. `CheckConfig` takes the stored record, and the popup's save is the record it hands to storage. The popup's notice to the active tab (`chrome.tabs.query` and `sendMessage`) is not modelled.
- The once-per-page guard (`window.TVP_INSTANCE`) and the start-up log line: the model starts with one controller per page.
- Timing: the 500 ms delay is not modelled. Wall-clock order between a hide request and its timeout is not modelled, nor the `requestAnimationFrame` rescheduling. Each `FireHideTimer` or `Frame` call stands for one run.
- Native media behaviour: `play()` clears `paused` at once, and its promise, errors and buffering are not modelled. Neither is the browser's clamping of `currentTime` to the media range, nor the events the video itself raises.
- Media.Truthy: a `duration` that is NaN or infinite is not modelled; a duration counts as known exactly when it is not zero.
- ContentScript.Controller.ShowPosition: the slider's `step="0.1"` rounding and clamping of the written value, and the gradient style string, are not modelled; the value is the exact percentage.
- Floating point: positions, times and rates are exact reals. IEEE rounding of `r.width * 0.4` and of `currentTime / 60` is not modelled.
- JsNumbers.IntToString: JavaScript's exponent notation for integers of 22 digits or more (magnitude 1e21 and above) is not modelled; such a position cannot occur in a video.
- Settings.KnownHosts: only the positive facts are stated (each known host raises its own flag). That www.instagram.com does not contain "threads" is true but not proved.
- Settings.Includes: host names are compared as character sequences, with no case folding or punycode.
- Styling the preview: the rotation's CSS transform, the bar's opacity classes and the gradient fill are presentation. Their inputs are modelled (`Rotate`, `BarFaded`, `FillPercent`). The fullscreen button calls a browser API and is not modelled.
- Preview.PreviewController.OnTimeUpdate: adding and removing the preview's listeners when the component mounts and unmounts is not modelled. The event methods require a mounted video.
- The landing-page components `CodeSection.tsx` (clipboard and download) and `DemoSection.tsx` (static markup) are not part of this model.
