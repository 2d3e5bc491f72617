# FirefoxReality UI core, modelled in Dafny

This project models the glue between the Firefox Reality VR browser's web
engine and its 2D/VR user interface:

- **Media** (`MediaMirror`): the per-element media object. It caches what the
  engine reports (state, time, volume, metadata) and forwards every callback
  to at most one delegate. After `unload` it forwards nothing.
- **Seek bar** (`MediaSeekBar`): the seek bar's labels, progress, buffered
  progress and enabled state, and the `m:ss` time format; seek targets for
  user drags.
- **Media controls** (`MediaControls`): how the media callbacks drive the
  play, volume and seek widgets; what the buttons send to the media; and
  attaching new media, which primes the UI from the media's cache.
- **Navigation bar** (`NavigationBar`): the fullscreen, resize and VR-video
  modes. Their flags stay matched with the back-handler stack and the
  world-brightness stack. Also the back and reload buttons, the loading
  flag, and the width the bar follows when the browser window is resized.
- **External VR state** (`ExternalVRState`): the state shared with the
  engine's VR process:
  - the presentation edges and the VR state derived from them (not
    presenting, link traversal, loading, rendering);
  - the mapping of device capabilities to display capability flags;
  - the display-name buffer and the controller slots;
  - wrap-around frame counters;
  - the order in which state is published when the compositor is paused.
- **Settings** (`Settings`):
  - the version label, which toggles between the build date and the git
    hash;
  - the build date decoded from the version code;
  - the report-issue URL sanitiser;
  - the focus rule that dismisses the panel.
- **URL bar popup** (`URLBarPopup`): items, the bold span of the typed text,
  the rules each row follows, deletion by first occurrence, and
  showing/hiding.
- **Search engine** (`SearchEngine`): the region overrides, the choice of
  localization provider and filters, the fallback manager, the process-wide
  instance and query encoding.
- **Suggestions** (`SuggestionParser`): parser selection and the parsing of
  suggestion arrays.
- **VR video** (`VRVideo`):
  - the eyes created for each projection and the eye selection;
  - the texture-coordinate grid and triangle indices of the 360° sphere.

Mutable objects are classes whose methods state their new state as a
function of the old one. Calls into the engine, the session store and the
widget manager become returned values: forwarded calls, commands, effects
and signals. `Wrappers` holds `Option` and `Result`. `JavaLang` models the
Java and C library behaviour the core relies on:

- 32-bit integers and truncating division;
- `Integer.toString` and `Integer.parseInt`;
- `(int)` casts of doubles;
- `indexOf`;
- ASCII `equalsIgnoreCase`.

## Model

| member | source | states |
|---|---|---|
| MediaMirror.InitialMirror | app/src/common/shared/org/mozilla/vrbrowser/browser/Media.java:11-20 | a new media starts with duration −1, time 0, rate 1, volume 1, unmuted, not fullscreen, no metadata, loading and have-nothing states, not unloaded and without delegate |
| MediaMirror.Cached | app/src/common/shared/org/mozilla/vrbrowser/browser/Media.java:112-194 | the cache after one callback; `CachedStoresArgument` states what each callback writes |
| MediaMirror.CachedStoresArgument | app/src/common/shared/org/mozilla/vrbrowser/browser/Media.java:112-194 | each callback replaces exactly its own cached field with its argument (volume and muted together, metadata as present) and leaves every other field as it was, for every kind of callback; load progress and errors store nothing; the duration is never written |
| MediaMirror.ForwardedIffDelegate | app/src/common/shared/org/mozilla/vrbrowser/browser/Media.java:112-194 | a callback is forwarded exactly when a delegate is set, and then to that delegate with the same element and event |
| MediaMirror.DurationAlwaysUnknown | app/src/common/shared/org/mozilla/vrbrowser/browser/Media.java:11 | after any sequence of callbacks, delegate changes and unloads, the duration of a new media is still −1 |
| MediaMirror.DurationPreserved | app/src/common/shared/org/mozilla/vrbrowser/browser/Media.java:112-194 | no operation sequence changes the cached duration |
| MediaMirror.UnloadSilences | app/src/common/shared/org/mozilla/vrbrowser/browser/Media.java:97-100 | after `unload`, callbacks that follow (without a new delegate) forward nothing, and the media stays unloaded with no delegate |
| MediaMirror.SilentWithoutDelegate | app/src/common/shared/org/mozilla/vrbrowser/browser/Media.java:97-100 | an unloaded media without delegate forwards nothing over any callback sequence that sets no delegate |
| MediaMirror.ForwardsEveryCallback | app/src/common/shared/org/mozilla/vrbrowser/browser/Media.java:112-194 | with a delegate, a callback sequence forwards exactly one call per callback, in order, to that delegate |
| MediaMirror.SetDelegateReplaces | app/src/common/shared/org/mozilla/vrbrowser/browser/Media.java:29-31 | after `setDelegate(d)` the next callback goes to `d`, or nowhere for null |
| MediaMirror.Dimension | app/src/common/shared/org/mozilla/vrbrowser/browser/Media.java:102-108 | `getWidth`/`getHeight`: 0 without metadata, otherwise the truncated width or height (a 32-bit value, the floor for values in range) |
| MediaMirror.Media.constructor | app/src/common/shared/org/mozilla/vrbrowser/browser/Media.java:24-27 | a new media wraps its element and has the initial cached state |
| MediaMirror.Media.SetDelegate | app/src/common/shared/org/mozilla/vrbrowser/browser/Media.java:29-31 | the delegate is replaced, nothing else changes |
| MediaMirror.Media.Unload | app/src/common/shared/org/mozilla/vrbrowser/browser/Media.java:97-100 | the media is marked unloaded and loses its delegate |
| MediaMirror.Media.Width | app/src/common/shared/org/mozilla/vrbrowser/browser/Media.java:102-104 | the width as `Dimension` states it |
| MediaMirror.Media.Height | app/src/common/shared/org/mozilla/vrbrowser/browser/Media.java:106-108 | the height as `Dimension` states it |
| MediaMirror.Media.OnPlaybackStateChange | app/src/common/shared/org/mozilla/vrbrowser/browser/Media.java:112-118 | the playback state is cached and the call forwarded as `Step` states |
| MediaMirror.Media.OnReadyStateChange | app/src/common/shared/org/mozilla/vrbrowser/browser/Media.java:121-127 | the ready state is cached and the call forwarded as `Step` states |
| MediaMirror.Media.OnMetadataChange | app/src/common/shared/org/mozilla/vrbrowser/browser/Media.java:130-136 | the metadata is cached and the call forwarded as `Step` states |
| MediaMirror.Media.OnLoadProgress | app/src/common/shared/org/mozilla/vrbrowser/browser/Media.java:139-149 | nothing is cached; the call is forwarded as `Step` states |
| MediaMirror.Media.OnVolumeChange | app/src/common/shared/org/mozilla/vrbrowser/browser/Media.java:152-159 | volume and muted are cached and the call forwarded as `Step` states |
| MediaMirror.Media.OnTimeChange | app/src/common/shared/org/mozilla/vrbrowser/browser/Media.java:162-168 | the current time is cached and the call forwarded as `Step` states |
| MediaMirror.Media.OnPlaybackRateChange | app/src/common/shared/org/mozilla/vrbrowser/browser/Media.java:171-177 | the rate is cached and the call forwarded as `Step` states |
| MediaMirror.Media.OnFullscreenChange | app/src/common/shared/org/mozilla/vrbrowser/browser/Media.java:180-186 | the fullscreen flag is cached and the call forwarded as `Step` states |
| MediaMirror.Media.OnError | app/src/common/shared/org/mozilla/vrbrowser/browser/Media.java:189-194 | nothing is cached; the call is forwarded as `Step` states |
| MediaSeekBar.FormatTime | app/src/common/shared/org/mozilla/vrbrowser/ui/views/MediaSeekBar.java:61-67 | `formatTime` with Java's truncating `/` and `%`; `FormatTimeSpec` and `FormatTimeNegative` state its output |
| MediaSeekBar.FormatTimeSpec | app/src/common/shared/org/mozilla/vrbrowser/ui/views/MediaSeekBar.java:61-67 | for a time in the int range, `formatTime` is the decimal minutes (floor of the time divided by 60, no padding), a colon, and the seconds (floor of the time modulo 60) padded to exactly two digits; minutes·60 + seconds is the floor of the time and seconds < 60 |
| MediaSeekBar.FormatTimeNegative | app/src/common/shared/org/mozilla/vrbrowser/ui/views/MediaSeekBar.java:61-67 | a negative time formats with Java's truncating division: −1 s is `0:-1` |
| MediaSeekBar.Clamp | app/src/common/shared/org/mozilla/vrbrowser/ui/views/MediaSeekBar.java:124 | `setProgress` keeps a value in 0 … 100 and clamps values outside it |
| MediaSeekBar.Scaled | app/src/common/shared/org/mozilla/vrbrowser/ui/views/MediaSeekBar.java:123-124 | the progress for a time and a positive duration lies in 0 … 100 |
| MediaSeekBar.ScaledIsPercentage | app/src/common/shared/org/mozilla/vrbrowser/ui/views/MediaSeekBar.java:123-124 | for 0 ≤ t ≤ d the progress is the truncated percentage: progress ≤ t/d·100 < progress + 1 |
| MediaSeekBar.InitialView | app/src/common/shared/org/mozilla/vrbrowser/ui/views/MediaSeekBar.java:49-59 | after `initialize` both labels read `0:00`, progress is at the maximum, the bar is disabled and seekable |
| MediaSeekBar.UpdateProgress | app/src/common/shared/org/mozilla/vrbrowser/ui/views/MediaSeekBar.java:119-125 | `updateProgress` changes nothing while touching or for a non-positive duration; otherwise it sets the progress to the scaled play position and changes nothing else |
| MediaSeekBar.UpdateBuffered | app/src/common/shared/org/mozilla/vrbrowser/ui/views/MediaSeekBar.java:127-134 | `updateBufferedProgress` sets the secondary progress to 0 for a non-positive duration and to the scaled buffered position otherwise, and changes nothing else |
| MediaSeekBar.AfterSetCurrentTime | app/src/common/shared/org/mozilla/vrbrowser/ui/views/MediaSeekBar.java:73-79 | `setCurrentTime`; its effects are stated by `SetCurrentTimeValid`, `SettersKeepOtherAttributes`, `ProgressFollowsTime` and `LiveIgnoresTime` |
| MediaSeekBar.AfterSetDuration | app/src/common/shared/org/mozilla/vrbrowser/ui/views/MediaSeekBar.java:81-89 | `setDuration`; its effects are stated by `SetDurationValid`, `SetDurationEnables`, `ProgressFollowsTime` and `DragFreezesProgress` |
| MediaSeekBar.AfterSetSeekable | app/src/common/shared/org/mozilla/vrbrowser/ui/views/MediaSeekBar.java:91-110 | `setSeekable`; its effects are stated by `SetSeekableValid`, `SetSeekableIdempotent` and `SetSeekableChanges` |
| MediaSeekBar.EnterSeekable | app/src/common/shared/org/mozilla/vrbrowser/ui/views/MediaSeekBar.java:96-101 | the seekable branch of `setSeekable`; `SetSeekableChanges` states its effect |
| MediaSeekBar.EnterLive | app/src/common/shared/org/mozilla/vrbrowser/ui/views/MediaSeekBar.java:102-105 | the live branch of `setSeekable`; `SetSeekableChanges` states its effect |
| MediaSeekBar.AfterSetBuffered | app/src/common/shared/org/mozilla/vrbrowser/ui/views/MediaSeekBar.java:112-117 | `setBuffered`; its effects are stated by `SetBufferedValid`, `SettersKeepOtherAttributes` and `LiveIgnoresTime` |
| MediaSeekBar.SeekTime | app/src/common/shared/org/mozilla/vrbrowser/ui/views/MediaSeekBar.java:140 | the time for a bar position, duration·progress/max; `SeekRoundTrip` states that scaling it back gives the position |
| MediaSeekBar.SeekTarget | app/src/common/shared/org/mozilla/vrbrowser/ui/views/MediaSeekBar.java:138-143 | a seek target exists exactly for a user change with a delegate set, and it is duration·progress/max |
| MediaSeekBar.OperationsPreserveValid | app/src/common/shared/org/mozilla/vrbrowser/ui/views/MediaSeekBar.java:73-153 | every setter and the touch callbacks keep the bar's invariant (progress within bounds, the live label and full bar when not seekable, an enabled bar is seekable, the labels show the cached times, and a seekable bar with a positive duration shows the buffered fraction) |
| MediaSeekBar.SetCurrentTimeValid | app/src/common/shared/org/mozilla/vrbrowser/ui/views/MediaSeekBar.java:73-79 | `setCurrentTime` keeps the invariant |
| MediaSeekBar.SetDurationValid | app/src/common/shared/org/mozilla/vrbrowser/ui/views/MediaSeekBar.java:81-89 | `setDuration` keeps the invariant |
| MediaSeekBar.SetSeekableValid | app/src/common/shared/org/mozilla/vrbrowser/ui/views/MediaSeekBar.java:91-110 | `setSeekable` keeps the invariant |
| MediaSeekBar.SetBufferedValid | app/src/common/shared/org/mozilla/vrbrowser/ui/views/MediaSeekBar.java:112-117 | `setBuffered` keeps the invariant |
| MediaSeekBar.SettersKeepOtherAttributes | app/src/common/shared/org/mozilla/vrbrowser/ui/views/MediaSeekBar.java:73-117 | each setter stores its own attribute and leaves the other three unchanged |
| MediaSeekBar.ProgressFollowsTime | app/src/common/shared/org/mozilla/vrbrowser/ui/views/MediaSeekBar.java:73-89 | when seekable and not touching, a new time or a positive duration moves the progress to the scaled value, and a positive duration enables the bar |
| MediaSeekBar.DragFreezesProgress | app/src/common/shared/org/mozilla/vrbrowser/ui/views/MediaSeekBar.java:119-122 | while the user touches the bar, new times and durations leave the progress alone |
| MediaSeekBar.LiveIgnoresTime | app/src/common/shared/org/mozilla/vrbrowser/ui/views/MediaSeekBar.java:73-117 | for a live stream the left label stays `LIVE` with a full bar, buffering does not move the secondary progress, and a duration does not enable the bar |
| MediaSeekBar.SetSeekableIdempotent | app/src/common/shared/org/mozilla/vrbrowser/ui/views/MediaSeekBar.java:92-94 | setting the seekable flag the bar already has changes nothing, so setting the same flag twice is the same as once |
| MediaSeekBar.SetSeekableChanges | app/src/common/shared/org/mozilla/vrbrowser/ui/views/MediaSeekBar.java:95-109 | a real change of seekability enables the bar exactly when it becomes seekable with a positive duration, shows or hides the right label and the thumb, makes a live bar full and labelled `LIVE`, and gives a seekable bar its time label, play position and buffered position |
| MediaSeekBar.SetDurationEnables | app/src/common/shared/org/mozilla/vrbrowser/ui/views/MediaSeekBar.java:81-89 | `setDuration` never disables the bar: afterwards it is enabled exactly when it was before or the bar is seekable with a positive new duration, which also sets the buffered position |
| MediaSeekBar.UpdateBufferedIgnoresTouching | app/src/common/shared/org/mozilla/vrbrowser/ui/views/MediaSeekBar.java:127-134 | the buffered position is the same whether or not the user is dragging |
| MediaSeekBar.SeekRoundTrip | app/src/common/shared/org/mozilla/vrbrowser/ui/views/MediaSeekBar.java:138-143 | seeking to the time for progress p and scaling it back gives p |
| MediaSeekBar.LiveThenSeekable | app/src/common/shared/org/mozilla/vrbrowser/ui/views/MediaSeekBar.java:91-110 | a live stream turned seekable shows its time and the scaled progress, and is enabled |
| MediaSeekBar.SeekBar.constructor | app/src/common/shared/org/mozilla/vrbrowser/ui/views/MediaSeekBar.java:49-59 | the new bar's view is the initial view |
| MediaSeekBar.SeekBar.SetDelegate | app/src/common/shared/org/mozilla/vrbrowser/ui/views/MediaSeekBar.java:69-71 | only the delegate changes |
| MediaSeekBar.SeekBar.UpdateProgressInPlace | app/src/common/shared/org/mozilla/vrbrowser/ui/views/MediaSeekBar.java:119-125 | the new view is `UpdateProgress` of the old |
| MediaSeekBar.SeekBar.UpdateBufferedInPlace | app/src/common/shared/org/mozilla/vrbrowser/ui/views/MediaSeekBar.java:127-134 | the new view is `UpdateBuffered` of the old |
| MediaSeekBar.SeekBar.SetCurrentTime | app/src/common/shared/org/mozilla/vrbrowser/ui/views/MediaSeekBar.java:73-79 | the new view is `AfterSetCurrentTime` of the old, and the invariant holds |
| MediaSeekBar.SeekBar.SetDuration | app/src/common/shared/org/mozilla/vrbrowser/ui/views/MediaSeekBar.java:81-89 | the new view is `AfterSetDuration` of the old, and the invariant holds |
| MediaSeekBar.SeekBar.SetSeekable | app/src/common/shared/org/mozilla/vrbrowser/ui/views/MediaSeekBar.java:91-110 | the new view is `AfterSetSeekable` of the old, and the invariant holds |
| MediaSeekBar.SeekBar.BecomeSeekable | app/src/common/shared/org/mozilla/vrbrowser/ui/views/MediaSeekBar.java:96-101 | the seekable branch of `setSeekable` |
| MediaSeekBar.SeekBar.BecomeLive | app/src/common/shared/org/mozilla/vrbrowser/ui/views/MediaSeekBar.java:102-105 | the live branch of `setSeekable` |
| MediaSeekBar.SeekBar.SetBuffered | app/src/common/shared/org/mozilla/vrbrowser/ui/views/MediaSeekBar.java:112-117 | the new view is `AfterSetBuffered` of the old, and the invariant holds |
| MediaSeekBar.SeekBar.OnProgressChanged | app/src/common/shared/org/mozilla/vrbrowser/ui/views/MediaSeekBar.java:138-143 | the seek handed to the delegate is `SeekTarget` |
| MediaSeekBar.SeekBar.OnStartTrackingTouch | app/src/common/shared/org/mozilla/vrbrowser/ui/views/MediaSeekBar.java:146-148 | only the touching flag is set |
| MediaSeekBar.SeekBar.OnStopTrackingTouch | app/src/common/shared/org/mozilla/vrbrowser/ui/views/MediaSeekBar.java:151-153 | only the touching flag is cleared |
| MediaControls.InitialControls | app/src/common/shared/org/mozilla/vrbrowser/ui/widgets/MediaControlsWidget.java:104-110 | the new widget has a valid seek bar with its delegate set, an enabled volume button, and is visible |
| MediaControls.OnEvent | app/src/common/shared/org/mozilla/vrbrowser/ui/widgets/MediaControlsWidget.java:153-211 | the delegate callbacks; `OnEventCrashes`, `OnEventKeepsBarValid`, `PlayIconTracksState`, `SilentMediaIgnoresVolume`, `LoadProgressUsesLastRange` and `FullscreenHides` state their effects |
| MediaControls.OnEventCrashes | app/src/common/shared/org/mozilla/vrbrowser/ui/widgets/MediaControlsWidget.java:180-184 | a media callback fails exactly for load progress with an empty buffered array (index −1) |
| MediaControls.OnEventKeepsBarValid | app/src/common/shared/org/mozilla/vrbrowser/ui/widgets/MediaControlsWidget.java:153-211 | every callback that succeeds keeps the seek bar's invariant |
| MediaControls.PlayIconTracksState | app/src/common/shared/org/mozilla/vrbrowser/ui/widgets/MediaControlsWidget.java:153-159 | the play button shows the pause icon exactly when the new state is playing |
| MediaControls.SilentMediaIgnoresVolume | app/src/common/shared/org/mozilla/vrbrowser/ui/widgets/MediaControlsWidget.java:168-194 | media without audio tracks disables the volume button with the muted icon, and later volume callbacks change nothing |
| MediaControls.LoadProgressUsesLastRange | app/src/common/shared/org/mozilla/vrbrowser/ui/widgets/MediaControlsWidget.java:180-184 | load progress with buffered ranges sets the seek bar's buffered time to the end of the last range, whether or not the bar is seekable |
| MediaControls.FullscreenHides | app/src/common/shared/org/mozilla/vrbrowser/ui/widgets/MediaControlsWidget.java:207-211 | leaving fullscreen hides the widget; entering it changes nothing |
| MediaControls.PrimeShowsMedia | app/src/common/shared/org/mozilla/vrbrowser/ui/widgets/MediaControlsWidget.java:142-147 | priming from a media's cache fails exactly without metadata (null dereference); otherwise the bar shows its duration, time and seekability, the volume button follows the audio tracks and shows the cached volume and mute, and the play icon tracks the cached playback state |
| MediaControls.PlayClick | app/src/common/shared/org/mozilla/vrbrowser/ui/widgets/MediaControlsWidget.java:66-72 | the play button; `PlayClickToggles` and `ClicksNeedMedia` state its commands |
| MediaControls.SeekBackClick | app/src/common/shared/org/mozilla/vrbrowser/ui/widgets/MediaControlsWidget.java:74-77 | the seek-back button; `SeekBackBounds` and `ClicksNeedMedia` state its command |
| MediaControls.SeekForwardClick | app/src/common/shared/org/mozilla/vrbrowser/ui/widgets/MediaControlsWidget.java:79-85 | the seek-forward button; `SeekForwardBounds` and `ClicksNeedMedia` state its command |
| MediaControls.PlayClickToggles | app/src/common/shared/org/mozilla/vrbrowser/ui/widgets/MediaControlsWidget.java:66-72 | the play button sends pause to playing media and play otherwise |
| MediaControls.SeekBackBounds | app/src/common/shared/org/mozilla/vrbrowser/ui/widgets/MediaControlsWidget.java:74-77 | seek back sends one seek to the attached element, to max(0, time − 10): never below 0, exactly 10 s earlier when that is not negative |
| MediaControls.SeekForwardBounds | app/src/common/shared/org/mozilla/vrbrowser/ui/widgets/MediaControlsWidget.java:79-85 | seek forward fails without metadata; otherwise it sends one seek to time + 30, or to the duration when the duration is positive and smaller |
| MediaControls.VolumeControlUnmutes | app/src/common/shared/org/mozilla/vrbrowser/ui/widgets/MediaControlsWidget.java:105-110 | the volume control sets the volume and unmutes muted media |
| MediaControls.VolumeButtonToggles | app/src/common/shared/org/mozilla/vrbrowser/ui/widgets/MediaControlsWidget.java:91-98 | the volume button toggles mute and shows volume 0 when muting |
| MediaControls.ClicksNeedMedia | app/src/common/shared/org/mozilla/vrbrowser/ui/widgets/MediaControlsWidget.java:66-110 | every control fails with a null dereference when no media is attached |
| MediaControls.MediaControlsWidget.constructor | app/src/common/shared/org/mozilla/vrbrowser/ui/widgets/MediaControlsWidget.java:104-110 | the new widget has its seek bar, no media and the initial controls |
| MediaControls.MediaControlsWidget.HandleEvent | app/src/common/shared/org/mozilla/vrbrowser/ui/widgets/MediaControlsWidget.java:153-211 | the controls become `OnEvent` of the old, or stay as they were when the callback fails |
| MediaControls.MediaControlsWidget.OnMetadataChange | app/src/common/shared/org/mozilla/vrbrowser/ui/widgets/MediaControlsWidget.java:168-177 | the controls become `OnEvent` of the old for the metadata |
| MediaControls.MediaControlsWidget.OnLoadProgress | app/src/common/shared/org/mozilla/vrbrowser/ui/widgets/MediaControlsWidget.java:180-184 | the controls become `OnEvent` of the old, or the call fails on an empty buffered array |
| MediaControls.MediaControlsWidget.PrimeFrom | app/src/common/shared/org/mozilla/vrbrowser/ui/widgets/MediaControlsWidget.java:142-147 | the controls become `Prime` of the old for the cache; when `Prime` fails (no metadata) the result is an error and the controls are unchanged |
| MediaControls.MediaControlsWidget.SetMedia | app/src/common/shared/org/mozilla/vrbrowser/ui/widgets/MediaControlsWidget.java:131-149 | the same media is a no-op; otherwise the old media loses its delegate and keeps the rest of its state, null leaves the controls alone, and new media primes them from its cache and then gets this widget as delegate; the new media's state changes in its delegate only, and a failed priming leaves the controls unchanged |
| MediaControls.MediaControlsWidget.OnPlayClick | app/src/common/shared/org/mozilla/vrbrowser/ui/widgets/MediaControlsWidget.java:66-72 | the commands are `PlayClick` for the attached media |
| MediaControls.MediaControlsWidget.OnSeekBackClick | app/src/common/shared/org/mozilla/vrbrowser/ui/widgets/MediaControlsWidget.java:74-77 | the commands are `SeekBackClick` for the attached media |
| MediaControls.MediaControlsWidget.OnSeekForwardClick | app/src/common/shared/org/mozilla/vrbrowser/ui/widgets/MediaControlsWidget.java:79-85 | the commands are `SeekForwardClick` for the attached media |
| MediaControls.MediaControlsWidget.OnVolumeButtonClick | app/src/common/shared/org/mozilla/vrbrowser/ui/widgets/MediaControlsWidget.java:91-98 | the commands and new controls are `VolumeButtonClick`'s |
| MediaControls.MediaControlsWidget.OnVolumeControlChange | app/src/common/shared/org/mozilla/vrbrowser/ui/widgets/MediaControlsWidget.java:105-110 | the commands are `VolumeControlChange` for the attached media |
| MediaControls.MediaControlsWidget.OnSeekBarProgress | app/src/common/shared/org/mozilla/vrbrowser/ui/widgets/MediaControlsWidget.java:104 | a user seek from the bar becomes a seek of the attached media |
| NavigationBar.RemoveLastCount | app/src/common/shared/org/mozilla/vrbrowser/ui/widgets/NavigationBarWidget.java:407 | popping a back handler removes one occurrence of it when present and leaves the others' counts alone |
| NavigationBar.PopAfterPush | app/src/common/shared/org/mozilla/vrbrowser/ui/widgets/NavigationBarWidget.java:375 | a pop right after a push of the same handler restores the stack |
| NavigationBar.CountPush | app/src/common/shared/org/mozilla/vrbrowser/ui/widgets/NavigationBarWidget.java:375 | a push adds one occurrence of its handler |
| NavigationBar.PopOwnerCount | app/src/common/shared/org/mozilla/vrbrowser/ui/widgets/NavigationBarWidget.java:411 | popping an owner's brightness removes one of its entries when present and leaves other owners' counts alone |
| NavigationBar.CountOwnerPush | app/src/common/shared/org/mozilla/vrbrowser/ui/widgets/NavigationBarWidget.java:381 | a brightness push adds one entry of its owner |
| NavigationBar.ClampedWorldWidth | app/src/common/shared/org/mozilla/vrbrowser/ui/widgets/NavigationBarWidget.java:708-723 | the world width lies between the default and 1.5 times it, and equals the target when that is in range |
| NavigationBar.WidgetUpdate | app/src/common/shared/org/mozilla/vrbrowser/ui/widgets/NavigationBarWidget.java:708-723 | `onWidgetUpdate`; `WidgetUpdateBounds` and `WidgetUpdateWidth` state the width it sets |
| NavigationBar.WidgetUpdateBounds | app/src/common/shared/org/mozilla/vrbrowser/ui/widgets/NavigationBarWidget.java:708-723 | an update from the browser while not resizing sets the clamped world width and a bar width between the default and 1.5 times it; anything else changes nothing |
| NavigationBar.BarPixelWidthBounds | app/src/common/shared/org/mozilla/vrbrowser/ui/widgets/NavigationBarWidget.java:718-721 | for a width ratio between 1 and 1.5, the `(int)` cast of the scaled dp width lies between the dp width and 1.5 times it |
| NavigationBar.ModesPreserveValid | app/src/common/shared/org/mozilla/vrbrowser/ui/widgets/NavigationBarWidget.java:371-502 | every mode entry and exit keeps the bar's invariant: each mode flag holds exactly when its back handler is on the stack, and fullscreen exactly when the bar's two brightness entries are |
| NavigationBar.EnterFullScreen | app/src/common/shared/org/mozilla/vrbrowser/ui/widgets/NavigationBarWidget.java:371-400 | `enterFullScreenMode`; `EnterFullScreenValid`, `GuardsAreNoOps` and `FullScreenRoundTrip` state its effects |
| NavigationBar.ExitFullScreen | app/src/common/shared/org/mozilla/vrbrowser/ui/widgets/NavigationBarWidget.java:402-421 | `exitFullScreenMode`; `ExitFullScreenValid`, `GuardsAreNoOps` and `FullScreenRoundTrip` state its effects |
| NavigationBar.EnterResize | app/src/common/shared/org/mozilla/vrbrowser/ui/widgets/NavigationBarWidget.java:423-437 | `enterResizeMode`; `EnterResizeValid` and `ModeRoundTrips` state its effects |
| NavigationBar.ExitResize | app/src/common/shared/org/mozilla/vrbrowser/ui/widgets/NavigationBarWidget.java:439-458 | `exitResizeMode`; `ExitResizeValid` and `ModeRoundTrips` state its effects |
| NavigationBar.EnterVRVideo | app/src/common/shared/org/mozilla/vrbrowser/ui/widgets/NavigationBarWidget.java:460-487 | `enterVRVideo`; `EnterVRVideoValid`, `VRVideoNeedsSize` and `ModeRoundTrips` state its effects |
| NavigationBar.ExitVRVideo | app/src/common/shared/org/mozilla/vrbrowser/ui/widgets/NavigationBarWidget.java:489-502 | `exitVRVideo`; `ExitVRVideoValid` and `ModeRoundTrips` state its effects |
| NavigationBar.EnterFullScreenValid | app/src/common/shared/org/mozilla/vrbrowser/ui/widgets/NavigationBarWidget.java:371-400 | entering fullscreen keeps the invariant |
| NavigationBar.ExitFullScreenValid | app/src/common/shared/org/mozilla/vrbrowser/ui/widgets/NavigationBarWidget.java:402-421 | leaving fullscreen keeps the invariant |
| NavigationBar.EnterResizeValid | app/src/common/shared/org/mozilla/vrbrowser/ui/widgets/NavigationBarWidget.java:423-437 | entering resize keeps the invariant |
| NavigationBar.ExitResizeValid | app/src/common/shared/org/mozilla/vrbrowser/ui/widgets/NavigationBarWidget.java:439-458 | leaving resize keeps the invariant |
| NavigationBar.EnterVRVideoValid | app/src/common/shared/org/mozilla/vrbrowser/ui/widgets/NavigationBarWidget.java:460-487 | entering VR video keeps the invariant |
| NavigationBar.ExitVRVideoValid | app/src/common/shared/org/mozilla/vrbrowser/ui/widgets/NavigationBarWidget.java:489-502 | leaving VR video keeps the invariant |
| NavigationBar.GuardsAreNoOps | app/src/common/shared/org/mozilla/vrbrowser/ui/widgets/NavigationBarWidget.java:372-374 | entering a mode already entered, or leaving one not entered, changes nothing and has no effect |
| NavigationBar.FullScreenRoundTrip | app/src/common/shared/org/mozilla/vrbrowser/ui/widgets/NavigationBarWidget.java:371-421 | entering and leaving fullscreen restores the back handlers and brightness stack and shows the tray again |
| NavigationBar.ModeRoundTrips | app/src/common/shared/org/mozilla/vrbrowser/ui/widgets/NavigationBarWidget.java:423-502 | entering and leaving resize or VR video restores the back handlers; VR video shows the bar again |
| NavigationBar.VRVideoNeedsSize | app/src/common/shared/org/mozilla/vrbrowser/ui/widgets/NavigationBarWidget.java:460-487 | VR video mode is enabled on the browser exactly for fullscreen media of positive width and height, and the video is always shown with the projection, hiding the bar |
| NavigationBar.OnFullScreenModes | app/src/common/shared/org/mozilla/vrbrowser/ui/widgets/NavigationBarWidget.java:677-689 | a fullscreen change enters fullscreen and leaves resize, or leaves fullscreen and keeps resize |
| NavigationBar.BackClick | app/src/common/shared/org/mozilla/vrbrowser/ui/widgets/NavigationBarWidget.java:122-135 | the back button's choice between going back and unstacking; `BackEnabledIffClickActs` states it |
| NavigationBar.BackEnabledIffClickActs | app/src/common/shared/org/mozilla/vrbrowser/ui/widgets/NavigationBarWidget.java:122-135 | the back button acts exactly when it would be enabled (can go back or unstack), and prefers going back |
| NavigationBar.ReloadFollowsLoading | app/src/common/shared/org/mozilla/vrbrowser/ui/widgets/NavigationBarWidget.java:148-161 | after a page start, reload stops the load and shows the stop icon; after a page stop, it reloads and shows the reload icon |
| NavigationBar.WidgetManager.PushBackHandler | app/src/common/shared/org/mozilla/vrbrowser/ui/widgets/NavigationBarWidget.java:375 | the handler is appended to the back stack |
| NavigationBar.WidgetManager.PopBackHandler | app/src/common/shared/org/mozilla/vrbrowser/ui/widgets/NavigationBarWidget.java:407 | the last occurrence of the handler is removed |
| NavigationBar.WidgetManager.PushWorldBrightness | app/src/common/shared/org/mozilla/vrbrowser/ui/widgets/NavigationBarWidget.java:381 | the entry is appended to the brightness stack |
| NavigationBar.WidgetManager.PopWorldBrightness | app/src/common/shared/org/mozilla/vrbrowser/ui/widgets/NavigationBarWidget.java:411 | the owner's last entry is removed |
| NavigationBar.WidgetManager.SetTrayVisible | app/src/common/shared/org/mozilla/vrbrowser/ui/widgets/NavigationBarWidget.java:383 | only the tray flag changes |
| NavigationBar.NavigationBarWidget.constructor | app/src/common/shared/org/mozilla/vrbrowser/ui/widgets/NavigationBarWidget.java:117-120 | a new bar is in no mode, not loading, visible, and valid |
| NavigationBar.NavigationBarWidget.EnterFullScreenMode | app/src/common/shared/org/mozilla/vrbrowser/ui/widgets/NavigationBarWidget.java:371-400 | the new state and effects are `EnterFullScreen` of the old |
| NavigationBar.NavigationBarWidget.ExitFullScreenMode | app/src/common/shared/org/mozilla/vrbrowser/ui/widgets/NavigationBarWidget.java:402-421 | the new state and effects are `ExitFullScreen` of the old |
| NavigationBar.NavigationBarWidget.EnterResizeMode | app/src/common/shared/org/mozilla/vrbrowser/ui/widgets/NavigationBarWidget.java:423-437 | the new state and effects are `EnterResize` of the old |
| NavigationBar.NavigationBarWidget.ExitResizeMode | app/src/common/shared/org/mozilla/vrbrowser/ui/widgets/NavigationBarWidget.java:439-458 | the new state and effects are `ExitResize` of the old, the deferred widget update included |
| NavigationBar.NavigationBarWidget.EnterVRVideoMode | app/src/common/shared/org/mozilla/vrbrowser/ui/widgets/NavigationBarWidget.java:460-487 | the new state and effects are `EnterVRVideo` of the old |
| NavigationBar.NavigationBarWidget.ExitVRVideoMode | app/src/common/shared/org/mozilla/vrbrowser/ui/widgets/NavigationBarWidget.java:489-502 | the new state and effects are `ExitVRVideo` of the old |
| NavigationBar.NavigationBarWidget.OnFullScreen | app/src/common/shared/org/mozilla/vrbrowser/ui/widgets/NavigationBarWidget.java:677-689 | the new state and effects are `AfterFullScreen` of the old |
| NavigationBar.NavigationBarWidget.OnWidgetUpdate | app/src/common/shared/org/mozilla/vrbrowser/ui/widgets/NavigationBarWidget.java:708-723 | the new state is `WidgetUpdate` of the old |
| NavigationBar.NavigationBarWidget.OnReloadClick | app/src/common/shared/org/mozilla/vrbrowser/ui/widgets/NavigationBarWidget.java:148-161 | the effect is `ReloadClick` of the state |
| NavigationBar.NavigationBarWidget.OnCanGoBack | app/src/common/shared/org/mozilla/vrbrowser/ui/widgets/NavigationBarWidget.java:563-572 | the back button is enabled exactly when the session can go back or unstack |
| NavigationBar.NavigationBarWidget.OnPageStart | app/src/common/shared/org/mozilla/vrbrowser/ui/widgets/NavigationBarWidget.java:619-632 | the new state is `AfterPageStart` of the old |
| NavigationBar.NavigationBarWidget.OnPageStop | app/src/common/shared/org/mozilla/vrbrowser/ui/widgets/NavigationBarWidget.java:635-644 | the new state is `AfterPageStop` of the old |
| ExternalVRState.IsPresenting | app/src/main/cpp/ExternalVR.cpp:187-189 | presenting, navigating or showing an immersive layer; `GetVRStateCases` and `PresentEdgeLoads` use it |
| ExternalVRState.GetVRState | app/src/main/cpp/ExternalVR.cpp:318-328 | the VR state in priority order; `GetVRStateCases` states when each state holds |
| ExternalVRState.Pull | app/src/main/cpp/ExternalVR.cpp:173-185 | copying the browser state and recording the presenting edges; `PresentEdgeLoads`, `ExitEdgeRecordsFrame` and `PullMonotone` state its effects |
| ExternalVRState.GetVRStateCases | app/src/main/cpp/ExternalVR.cpp:318-328 | the VR state is not-presenting, link-traversal, rendering or loading, each stated as an if-and-only-if over the presentation flags |
| ExternalVRState.PresentEdgeLoads | app/src/main/cpp/ExternalVR.cpp:173-180 | starting to present sets the first-frame flag, so the state is loading or link traversal |
| ExternalVRState.NavigationMarksFirstFrame | app/src/main/cpp/ExternalVR.cpp:178-180 | a pull during a page navigation sets the first-frame flag, so the state is a link traversal and the next presenting pull without navigation reports loading, not rendering |
| ExternalVRState.ExitEdgeRecordsFrame | app/src/main/cpp/ExternalVR.cpp:181-184 | stopping presenting records the layer's frame id, clears waiting-for-exit and yields not-presenting |
| ExternalVRState.PullMonotone | app/src/main/cpp/ExternalVR.cpp:173-185 | a pull copies the browser state, never clears the first-frame flag, and without an edge or link traversal changes nothing else |
| ExternalVRState.StopPresentingNeverRenders | app/src/main/cpp/ExternalVR.cpp:430-434 | while waiting for exit the state is never rendering, also after a pull that keeps presenting |
| ExternalVRState.MapCapabilities | app/src/main/cpp/ExternalVR.cpp:216-240 | each of the seven device capabilities is set in the result exactly when set in the input, and no other bit is |
| ExternalVRState.CLength | app/src/main/cpp/ExternalVR.cpp:210-212 | the length of a NUL-terminated string is the index of its first NUL, or its whole length |
| ExternalVRState.NameBuffer | app/src/main/cpp/ExternalVR.cpp:206-213 | the display-name buffer keeps its size |
| ExternalVRState.NameBufferReadsBack | app/src/main/cpp/ExternalVR.cpp:206-213 | a non-empty name reads back from the buffer cut to its first NUL and to one less than the buffer size, and the last byte is NUL |
| ExternalVRState.Slots | app/src/main/cpp/ExternalVR.cpp:350-375 | the controller array keeps its size |
| ExternalVRState.SlotsCases | app/src/main/cpp/ExternalVR.cpp:350-375 | slot i is filled exactly for a named, enabled controller i, with its name, a valid orientation and its hand; every other slot is zero |
| ExternalVRState.ExternalVR.constructor | app/src/main/cpp/ExternalVR.cpp:436-439 | a new instance is reset and its system state published; the device capabilities and the compositor flag keep the shared state's values (no capabilities for the first instance) |
| ExternalVRState.ExternalVR.Reset | app/src/main/cpp/ExternalVR.cpp:148-163 | all shared state is zeroed except version, size, connected and mounted; the presentation flags and last frame id are cleared |
| ExternalVRState.ExternalVR.PushSystemState | app/src/main/cpp/ExternalVR.cpp:276-282 | the published system state becomes the current one; nothing else changes, header, device capabilities and compositor flag included |
| ExternalVRState.ExternalVR.PullBrowserState | app/src/main/cpp/ExternalVR.cpp:284-290 | the presentation becomes `Pull` of the old; the system state, the published state, the header, the device capabilities and the compositor flag are untouched |
| ExternalVRState.ExternalVR.CurrentVRState | app/src/main/cpp/ExternalVR.cpp:318-328 | the state is `GetVRState` of the presentation |
| ExternalVRState.ExternalVR.SetDeviceName | app/src/main/cpp/ExternalVR.cpp:206-213 | the buffer becomes `NameBuffer` of the old buffer and the name |
| ExternalVRState.ExternalVR.SetCapabilityFlags | app/src/main/cpp/ExternalVR.cpp:216-242 | the device flags are stored and the display and sensor flags both become `MapCapabilities` of them; the rest of the system state, the presentation, the published state, the header and the compositor flag stay |
| ExternalVRState.ExternalVR.SetCompositorEnabled | app/src/main/cpp/ExternalVR.cpp:293-310 | no change for the current value; enabling resumes the compositor and changes no state, frame id or published state; disabling publishes a state with frames suppressed, pauses, then publishes with suppression off and the frame ids zeroed, leaving that last state published; the header, the device capabilities and the presentation always stay |
| ExternalVRState.ExternalVR.StopPresenting | app/src/main/cpp/ExternalVR.cpp:430-434 | the presenting generation wraps up by one (nothing else in the system state changes), the state is published, and then waiting-for-exit is set; the header, the device capabilities and the compositor flag stay |
| ExternalVRState.ExternalVR.PushFramePoses | app/src/main/cpp/ExternalVR.cpp:331-378 | the system state changes only in the input frame id (wrapping up by one), the last submitted frame id (the last frame id) and the controllers (`Slots`), and is published; the presentation, the header, the device capabilities and the compositor flag stay |
| ExternalVRState.ExternalVR.FillControllers | app/src/main/cpp/ExternalVR.cpp:350-375 | the controller array becomes `Slots` of the controllers |
| Settings.DaysInYear | app/src/common/shared/org/mozilla/vrbrowser/ui/widgets/SettingsWidget.java:272-274 | a Gregorian year has 365 or 366 days |
| Settings.MonthLengths | app/src/common/shared/org/mozilla/vrbrowser/ui/widgets/SettingsWidget.java:272-274 | months have 28 to 31 days as the Gregorian calendar fixes them, and the month table covers the year |
| Settings.DaysBeforeMonotone | app/src/common/shared/org/mozilla/vrbrowser/ui/widgets/SettingsWidget.java:272-274 | the days before a month grow strictly with the month |
| Settings.MonthDown | app/src/common/shared/org/mozilla/vrbrowser/ui/widgets/SettingsWidget.java:274 | the month holding a day of the year is the last one starting before it |
| Settings.FromDayOfYearRoundTrip | app/src/common/shared/org/mozilla/vrbrowser/ui/widgets/SettingsWidget.java:273-274 | a day of the year in range maps to a valid date of that year with that day number |
| Settings.DayOfYearRoundTrip | app/src/common/shared/org/mozilla/vrbrowser/ui/widgets/SettingsWidget.java:273-274 | a valid date's day number is in range and maps back to the date |
| Settings.Lenient | app/src/common/shared/org/mozilla/vrbrowser/ui/widgets/SettingsWidget.java:273-274 | the lenient calendar's reading of an out-of-range day of the year; `LenientValid` and `LenientEdges` state it |
| Settings.LenientValid | app/src/common/shared/org/mozilla/vrbrowser/ui/widgets/SettingsWidget.java:273-274 | the lenient calendar gives a valid date for any day number, the plain one for numbers in range |
| Settings.LenientEdges | app/src/common/shared/org/mozilla/vrbrowser/ui/widgets/SettingsWidget.java:273-274 | day 0 rolls back to 31 December of the previous year, day 366 of a common year forward to 1 January |
| Settings.FormatDateFields | app/src/common/shared/org/mozilla/vrbrowser/ui/widgets/SettingsWidget.java:276-277 | `yyyy-MM-dd` gives ten characters: year, month and day as zero-padded digits reading back to the date's fields |
| Settings.VersionCodeToDate | app/src/common/shared/org/mozilla/vrbrowser/ui/widgets/SettingsWidget.java:264-284 | `versionCodeToDate`; `VersionCodeExample`, `ShortCodeIsDeveloper`, `NegativeCodeCrashes`, `LongCodeIsDate` and `OnlyFirstFourCharacters` state its results |
| Settings.VersionCodeExample | app/src/common/shared/org/mozilla/vrbrowser/ui/widgets/SettingsWidget.java:249-256 | 12490941 is shown as 2017-09-06, as the comment describes |
| Settings.ShortCodeIsDeveloper | app/src/common/shared/org/mozilla/vrbrowser/ui/widgets/SettingsWidget.java:279-281 | codes 0 to 999 have fewer than four digits and show the developer text |
| Settings.NegativeCodeCrashes | app/src/common/shared/org/mozilla/vrbrowser/ui/widgets/SettingsWidget.java:269-270 | a negative code makes `parseInt("-")` throw an exception that is not caught |
| Settings.LongCodeIsDate | app/src/common/shared/org/mozilla/vrbrowser/ui/widgets/SettingsWidget.java:264-278 | a code of four or more digits shows the lenient date of year 2016 + first digit and day of the next three |
| Settings.OnlyFirstFourCharacters | app/src/common/shared/org/mozilla/vrbrowser/ui/widgets/SettingsWidget.java:269-270 | codes that agree in their first four characters show the same text |
| Settings.VersionLabel.constructor | app/src/common/shared/org/mozilla/vrbrowser/ui/widgets/SettingsWidget.java:142 | the label starts with the date text and not showing the hash, which is `LabelAfterTaps(0)` |
| Settings.VersionLabel.OnDoubleTap | app/src/common/shared/org/mozilla/vrbrowser/ui/widgets/SettingsWidget.java:48-57 | a double tap shows the date if the hash was shown, the git hash otherwise, flips the flag and is handled; after the n-th tap the text is `LabelAfterTaps(n)` |
| Settings.LabelAlternates | app/src/common/shared/org/mozilla/vrbrowser/ui/widgets/SettingsWidget.java:48-57 | after n double taps the label shows the date for even n and the git hash for odd n |
| Settings.SanitizeReportUrl | app/src/common/shared/org/mozilla/vrbrowser/ui/widgets/SettingsWidget.java:225-233 | the page URL the report sends; `SanitizeCases` and `SanitizeExamples` state it |
| Settings.SanitizeCases | app/src/common/shared/org/mozilla/vrbrowser/ui/widgets/SettingsWidget.java:225-233 | a null URL and jar:, resource: and about: URLs become empty; the home page becomes the home URI; any other URL is kept |
| Settings.SanitizeExamples | app/src/common/shared/org/mozilla/vrbrowser/ui/widgets/SettingsWidget.java:228 | the prefix test is case-sensitive: `ABOUT:blank` is kept |
| Settings.OnReportClick | app/src/common/shared/org/mozilla/vrbrowser/ui/widgets/SettingsWidget.java:215-240 | a session is created exactly when there is none, and the report carries the sanitised URL, encoded, or unencoded when encoding fails |
| Settings.ReportWithoutPage | app/src/common/shared/org/mozilla/vrbrowser/ui/widgets/SettingsWidget.java:225-227 | without a page the report carries the encoded empty string |
| Settings.ShouldDismiss | app/src/common/shared/org/mozilla/vrbrowser/ui/widgets/SettingsWidget.java:306-319 | `onGlobalFocusChanged`'s decision; `FocusDismissal` states when it dismisses |
| Settings.FocusDismissal | app/src/common/shared/org/mozilla/vrbrowser/ui/widgets/SettingsWidget.java:306-319 | focus leaving the visible settings dismisses them; focus leaving the dialog dismisses exactly when it is visible and the new focus is not its child; other focus changes, or nothing visible, do not |
| URLBarPopup.Create | app/src/common/shared/org/mozilla/vrbrowser/ui/widgets/URLBarPopupWidget.java:181-189 | an item keeps the id, text, URL, favicon and type it is created with |
| JavaLang.IndexOf | app/src/common/shared/org/mozilla/vrbrowser/ui/widgets/URLBarPopupWidget.java:247 | `String.indexOf`: −1 exactly when the pattern occurs nowhere, otherwise an index where it occurs with no earlier occurrence |
| URLBarPopup.HighlightSpans | app/src/common/shared/org/mozilla/vrbrowser/ui/widgets/URLBarPopupWidget.java:244-253 | the spans of a row title; `HighlightSpansSpec` and `EmptyHighlight` state them |
| URLBarPopup.HighlightSpansSpec | app/src/common/shared/org/mozilla/vrbrowser/ui/widgets/URLBarPopupWidget.java:247-253 | the bold span exists exactly when the highlighted text occurs, spanning its first occurrence |
| URLBarPopup.EmptyHighlight | app/src/common/shared/org/mozilla/vrbrowser/ui/widgets/URLBarPopupWidget.java:247-253 | an empty highlight gives an empty span at the start |
| URLBarPopup.GetView | app/src/common/shared/org/mozilla/vrbrowser/ui/widgets/URLBarPopupWidget.java:211-289 | `getView`; `RowRules` and `RecycledRowCarriesOver` state what a row shows |
| URLBarPopup.RowRules | app/src/common/shared/org/mozilla/vrbrowser/ui/widgets/URLBarPopupWidget.java:211-289 | the row shows its position and title; the URL line shows exactly when there is a URL; suggestions get the search icon and completions the browser icon and divider, neither with delete; others show a favicon exactly when they have one |
| URLBarPopup.RecycledRowCarriesOver | app/src/common/shared/org/mozilla/vrbrowser/ui/widgets/URLBarPopupWidget.java:257-286 | a recycled row keeps its delete, divider and favicon image for other item types, and its old URL text when the item has no URL |
| URLBarPopup.RemoveFirst | app/src/common/shared/org/mozilla/vrbrowser/ui/widgets/URLBarPopupWidget.java:298 | `List.remove` removes one element when present and none otherwise |
| URLBarPopup.FirstIndex | app/src/common/shared/org/mozilla/vrbrowser/ui/widgets/URLBarPopupWidget.java:298 | the index of an item's first occurrence |
| URLBarPopup.RemoveFirstSpec | app/src/common/shared/org/mozilla/vrbrowser/ui/widgets/URLBarPopupWidget.java:298 | removal takes out exactly the first occurrence: the list without that position, a multiset minus one |
| URLBarPopup.DeleteRemovesPosition | app/src/common/shared/org/mozilla/vrbrowser/ui/widgets/URLBarPopupWidget.java:291-304 | with distinct items, deleting the item at a position removes that position |
| URLBarPopup.DeleteOfDuplicate | app/src/common/shared/org/mozilla/vrbrowser/ui/widgets/URLBarPopupWidget.java:291-304 | with a repeated item, deleting the later copy removes the first one instead |
| URLBarPopup.URLBarPopupWidget.constructor | app/src/common/shared/org/mozilla/vrbrowser/ui/widgets/URLBarPopupWidget.java:90 | a new popup has no items, no highlight, no delegate and is hidden |
| URLBarPopup.URLBarPopupWidget.SetDelegate | app/src/common/shared/org/mozilla/vrbrowser/ui/widgets/URLBarPopupWidget.java:140-142 | only the delegate changes |
| URLBarPopup.URLBarPopupWidget.SetHighlightedText | app/src/common/shared/org/mozilla/vrbrowser/ui/widgets/URLBarPopupWidget.java:144-146 | only the highlighted text changes |
| URLBarPopup.URLBarPopupWidget.SetItems | app/src/common/shared/org/mozilla/vrbrowser/ui/widgets/URLBarPopupWidget.java:148-152 | only the items change |
| URLBarPopup.URLBarPopupWidget.Show | app/src/common/shared/org/mozilla/vrbrowser/ui/widgets/URLBarPopupWidget.java:114-117 | the popup is visible and not hiding |
| URLBarPopup.URLBarPopupWidget.Hide | app/src/common/shared/org/mozilla/vrbrowser/ui/widgets/URLBarPopupWidget.java:119-122 | the hide animation starts |
| URLBarPopup.URLBarPopupWidget.OnHideAnimationEnd | app/src/common/shared/org/mozilla/vrbrowser/ui/widgets/URLBarPopupWidget.java:75-77 | the popup is hidden at the end of the animation |
| URLBarPopup.URLBarPopupWidget.OnGlobalFocusChanged | app/src/common/shared/org/mozilla/vrbrowser/ui/widgets/URLBarPopupWidget.java:134-138 | the popup hides exactly when focus leaves somewhere while it is visible |
| URLBarPopup.URLBarPopupWidget.OnDeleteClick | app/src/common/shared/org/mozilla/vrbrowser/ui/widgets/URLBarPopupWidget.java:291-304 | a position past the list fails; otherwise the item is removed as `RemoveFirst` states and handed to the delegate if any |
| URLBarPopup.URLBarPopupWidget.OnRowClick | app/src/common/shared/org/mozilla/vrbrowser/ui/widgets/URLBarPopupWidget.java:306-321 | the popup starts hiding; with a delegate the clicked item is handed over, failing past the list |
| SearchEngine.GetEngine | app/src/common/shared/org/mozilla/vrbrowser/search/SearchEngineWrapper.java:40-59 | a country has an engine exactly when it is one of the five override keys, and it is that key's engine |
| SearchEngine.OverrideTable | app/src/common/shared/org/mozilla/vrbrowser/search/SearchEngineWrapper.java:40-46 | the table maps CN, RU, BY, TR and KZ to their engines; lower-case or other codes have none |
| SearchEngine.SetupSearchEngine | app/src/common/shared/org/mozilla/vrbrowser/search/SearchEngineWrapper.java:159-187 | `setupSearchEngine`; `SetupWithoutLocation`, `SetupWithLocation` and `SetupFallback` state its choices |
| SearchEngine.SetupWithoutLocation | app/src/common/shared/org/mozilla/vrbrowser/search/SearchEngineWrapper.java:159-162 | without geolocation data the locale provider is used with no filter |
| SearchEngine.SetupWithLocation | app/src/common/shared/org/mozilla/vrbrowser/search/SearchEngineWrapper.java:163-172 | with geolocation data the geolocation provider is used, with one filter exactly when the country has an override, accepting identifiers equal to it up to case |
| SearchEngine.SetupFallback | app/src/common/shared/org/mozilla/vrbrowser/search/SearchEngineWrapper.java:185-187 | the default manager replaces the configured one exactly when it finds no engine |
| SearchEngine.EncodedQuery | app/src/common/shared/org/mozilla/vrbrowser/search/SearchEngineWrapper.java:99-117 | the query is URL-encoded, or kept when encoding fails |
| SearchEngine.SearchEngineWrapper.constructor | app/src/common/shared/org/mozilla/vrbrowser/search/SearchEngineWrapper.java:72-77 | a new wrapper runs the setup with an empty preference |
| SearchEngine.SearchEngineWrapper.Reconfigure | app/src/common/shared/org/mozilla/vrbrowser/search/SearchEngineWrapper.java:156-192 | the setup is replaced by a fresh one |
| SearchEngine.SearchEngineWrapper.OnLocaleChanged | app/src/common/shared/org/mozilla/vrbrowser/search/SearchEngineWrapper.java:141-148 | a new setup on the locale-changed action, none otherwise |
| SearchEngine.SearchEngineWrapper.OnSharedPreferenceChanged | app/src/common/shared/org/mozilla/vrbrowser/search/SearchEngineWrapper.java:207-213 | a new setup when the geolocation key changes, none otherwise |
| SearchEngine.SearchEngineWrapper.SearchQuery | app/src/common/shared/org/mozilla/vrbrowser/search/SearchEngineWrapper.java:99-117 | the query handed to the search and suggestion URL builders is `EncodedQuery` |
| SearchEngine.Singleton.Get | app/src/common/shared/org/mozilla/vrbrowser/search/SearchEngineWrapper.java:52-59 | the first call creates the wrapper, later calls return the same one |
| SearchEngine.GetTwice | app/src/common/shared/org/mozilla/vrbrowser/search/SearchEngineWrapper.java:52-59 | two calls return the same wrapper whatever their arguments |
| SuggestionParser.SelectArrayResponseParser | app/src/common/shared/org/mozilla/vrbrowser/search/suggestions/SuggestionParser.java:20-22 | every engine gets the default parser |
| SuggestionParser.SelectObjectResponseParser | app/src/common/shared/org/mozilla/vrbrowser/search/suggestions/SuggestionParser.java:24-36 | every engine, the three named ones included, gets a null object parser |
| SuggestionParser.DefaultSuggestions | app/src/common/shared/org/mozilla/vrbrowser/search/suggestions/SuggestionParser.java:38-54 | the suggestions are the string forms of the elements of the array at the index, in order, or none when there is no array there |
| SuggestionParser.ParseArrayResponse | app/src/common/shared/org/mozilla/vrbrowser/search/suggestions/SuggestionParser.java:38-54 | the loop builds exactly `DefaultSuggestions` |
| SuggestionParser.OpenSearchCompletions | app/src/common/shared/org/mozilla/vrbrowser/search/suggestions/SuggestionsClient.java:28-30 | for an OpenSearch response the suggestions are its completion strings |
| SuggestionParser.MalformedResponse | app/src/common/shared/org/mozilla/vrbrowser/search/suggestions/SuggestionsClient.java:29 | a response without an array at index 1 gives no suggestions |
| SuggestionParser.ObjectResponsesFail | app/src/common/shared/org/mozilla/vrbrowser/search/suggestions/SuggestionsClient.java:23-25 | as written, every object response fails on the null parser |
| SuggestionParser.ObjectResponsesEmpty | app/src/common/shared/org/mozilla/vrbrowser/search/suggestions/SuggestionsClient.java:23-25 | with no object parser, an object response gives an empty list |
| VRVideo.UpdateProjection | app/src/main/cpp/VRVideo.cpp:59-73 | `updateProjection`; `ProjectionEyes` states which eyes each projection creates |
| VRVideo.ProjectionEyes | app/src/main/cpp/VRVideo.cpp:59-73 | only the 360° projections create eyes: mono a left eye over the whole texture, stereo a left and a right eye over the two quarters |
| VRVideo.UvRow | app/src/main/cpp/VRVideo.cpp:91-100 | a row has one coordinate per column |
| VRVideo.UvRowMajor | app/src/main/cpp/VRVideo.cpp:85-101 | the grid has rows·cols coordinates laid out row-major, vertex row·cols + col carrying u = x + w·col/cols, v = y + h·row/rows |
| VRVideo.MonoUv | app/src/main/cpp/VRVideo.cpp:90-95 | the mono eye's coordinates are col/cols and row/rows |
| VRVideo.FaceCount | app/src/main/cpp/VRVideo.cpp:114-130 | the loops add rows·cols + (rows − 1)·cols faces |
| VRVideo.SphereSize | app/src/main/cpp/VRVideo.cpp:76-77 | the 60 × 60 sphere has 7140 faces over 3600 vertices |
| VRVideo.LastFaceOutOfRange | app/src/main/cpp/VRVideo.cpp:116-128 | the last face indexes a vertex past the grid |
| VRVideo.InteriorCellInGrid | app/src/main/cpp/VRVideo.cpp:116-128 | with 0-based vertex indices, the faces of cells off the last row and column index grid vertices |
| VRVideo.SeamCornerOutOfRange | app/src/main/cpp/VRVideo.cpp:119 | the last cell of the second-to-last row has corner rows², one past the last vertex with 0-based indices |
| VRVideo.OneBasedReading | app/src/main/cpp/VRVideo.cpp:116-128 | read with 1-based vertex indices, the first cell's face uses corner 0 outside the grid, and the seam cell's last face lies inside it |
| VRVideo.BuildSphere | app/src/main/cpp/VRVideo.cpp:85-130 | the mesh has the coordinates of `UvRows` and the faces of `FacesRows` |
| VRVideo.BuildUvs | app/src/main/cpp/VRVideo.cpp:85-101 | the coordinate loop builds `UvRows` |
| VRVideo.UvLine | app/src/main/cpp/VRVideo.cpp:91-100 | the inner loop builds one row |
| VRVideo.CellFaces | app/src/main/cpp/VRVideo.cpp:117-128 | the faces of one sphere cell, with the source's stride and second-face guard; `BuildFaces` and the face lemmas use it |
| VRVideo.BuildFaces | app/src/main/cpp/VRVideo.cpp:114-130 | the face loop builds `FacesRows` |
| VRVideo.FaceLine | app/src/main/cpp/VRVideo.cpp:115-129 | the inner loop builds one row of faces |
| VRVideo.Create360Projection | app/src/main/cpp/VRVideo.cpp:75-139 | the 60 × 60 sphere over the eye's texture rectangle |
| VRVideo.VRVideoNode.constructor | app/src/main/cpp/VRVideo.cpp:47-57 | the node has the eyes `updateProjection` creates, with their rectangles, and the root holds the left eye (null or not) and the right eye if any; `RootNodes` is read from the eye fields, so the root holds the same nodes that `SelectEye` toggles |
| VRVideo.VRVideoNode.SelectEye | app/src/main/cpp/VRVideo.cpp:145-152 | no change without a right eye; otherwise only the selected eye is shown, and the root keeps its nodes |
| VRVideo.NullRootNode | app/src/main/cpp/VRVideo.cpp:47-73 | without a 360° projection there are no eyes, so the root gets a null node |

## Left out

Left out across the whole model:

- **Rendering.** Animations, drawables, layout, audio feedback and view
  placement are out of the model. They appear only as flags and effect
  values.
- **Floating point.** Java `double`/`float` and C `float` are modelled as
  exact reals. NaN, infinities and rounding are not modelled.
- **Seek bar maximum.** The seek bar's maximum is taken as 100, Android's
  default. The layout XML is not part of this model.
- **Engine constants.** The GeckoView media constants (the loading,
  have-nothing and playing codes) are parameters.
- **build.gradle.** The build's version code and git hash are not part of
  this model; they are constructor parameters.
- **Unseen code.** The widget manager's stacks (`pushBackHandler`,
  `popBackHandler`, `pushWorldBrightness`, `popWorldBrightness`) are
  modelled with an assumed policy: a push appends and a pop removes the
  last matching entry. `WidgetManagerDelegate` is not part of this model.

Left out in ExternalVR and VR video:

- **ExternalVR header constants.** `moz_external_vr.h` and the device
  headers are not part of this model. The layout constants are parameters:
  version, structure size, display-name length and controller count. The
  capability bits are single distinct bits, numbered after their names'
  order.
- **Concurrency.** Mutexes, condition variables and the pthread lock are
  left out, as are `WaitFrameResult`'s timed wait loop and
  `GetFrameResult`. `PushSystemState` is modelled as always acquiring its
  lock.
- **Pose and field-of-view maths.** Quaternions and matrices in
  `PushFramePoses`, `SetFieldOfView`, `SetEyeResolution` and the
  identity-matrix setup in `Reset` are not modelled.
- ExternalVRState.ExternalVR.PushFramePoses: requires what the C++ leaves
  undefined (`memcpy` past a buffer) to be avoided. There are at most as
  many controllers as slots, and at most as many buttons and axes as
  values.
- **Controller names.** A controller name is copied whole. The fixed
  `controllerName` array's length is not modelled.
- InteriorCellInGrid (`VRVideo.InteriorCellInGrid`) and SeamCornerOutOfRange
  (`VRVideo.SeamCornerOutOfRange`): the vrb geometry library is not part of
  this model, so the index base of `AddFace` is not known. These two state
  the 0-based reading; `VRVideo.OneBasedReading` states the 1-based one.
- NameBuffer (`ExternalVRState.NameBuffer`): one Dafny `char` stands for one
  byte of the name. `strncpy` counts the bytes of the UTF-8 `std::string`, so
  a non-ASCII name is cut at a different place, possibly inside a character.
- **VR video geometry.** Vertex positions and normals (`sinf`/`cosf`), the
  render state, the texture and the scene-graph nodes are left out. A mesh
  is its texture-coordinate list plus its face list.

Left out in the widgets and search:

- FormatTime (`MediaSeekBar.FormatTime`): the label uses ASCII digits.
  `String.format` formats with the default locale's digits, so a locale such
  as Arabic or Persian shows other digits.
- VersionCodeToDate (`Settings.VersionCodeToDate`, with `Settings.FormatDate`):
  the date uses ASCII digits, while `SimpleDateFormat` uses the default
  locale's digits.
- ExitResize (`NavigationBar.ExitResize`): the width update that the source
  runs when the fade-out animation ends is applied at once, at the end of the
  call. Nothing else can happen in between in the model.
- **Calendar.** `GregorianCalendar.getInstance()` is modelled as a lenient
  Gregorian calendar, without the 1582 cut-over and without the time of
  day. A device whose default calendar is not Gregorian (a
  `ClassCastException`) is not modelled.
- **String identity.** Java `==` on strings and objects becomes a boolean
  parameter:
  - the locale-changed intent action;
  - the geolocation preference key;
  - view identity in the focus listeners.
- **URL popup adapter.** The list the popup's adapter shares with
  `setItems` callers is a value. Aliasing with the caller's list is not
  modelled.
- **URL popup highlighting.** The `indexOf` in the bold-span code is
  modelled on the item text as given. A null text is not modelled. The
  source attaches one `normal` span object twice (before and after the bold
  text), and Android keeps only the last placement of a span object, so
  only the text after the bold part actually carries it.
  `URLBarPopup.HighlightSpans` records both ranges the code asks for.
- Media.constructor (`MediaMirror.Media.constructor`): the constructor's
  `aMediaElement.setDelegate(this)` call into the engine is left out. The
  registration is taken as given: the engine's callbacks are this object's
  `On…` methods, which the caller invokes.
- **Search library.** The mozilla-components search library is left out.
  This covers engine lists, `getDefaultSearchEngine`, URL building,
  `getSuggestions` and `getResourceURL`, and the receiver registration in
  `registerForUpdates`/`unregisterForUpdates`. The number of engines the
  configured manager finds is a parameter. `URLEncoder.encode` is a
  parameter that may fail.
- **Null payloads.** A null metadata or load-progress object handed to a
  `Media` callback is a `NullPointerException` there. The model's events
  always carry a payload.
- **Case folding.** `String.equalsIgnoreCase` is modelled for ASCII letters
  only (`JavaLang.EqualsIgnoreCase`). Non-ASCII case pairs are not folded.
- **Session store.** The back button reads `SessionStore.canGoBack()` and
  `canUnstackSession()` at click time. `NavigationBar.BackClick` takes both
  as parameters, and `OnCanGoBack` takes its own value, so the model does not
  tie the two readings together.
- **Report URL.** The `loadUri` of the report page is left out. The model
  keeps the URL argument it would carry.
- **JSON library.** The JSON library's serialisation of nested arrays and
  objects is a parameter. A number element keeps its source text, whereas
  the JSON library prints the parsed number (`1e2` as `100.0`).

## Findings

| source | as written | input that shows it | evidently intended | confidence | as-written member | corrected member |
|---|---|---|---|---|---|---|
| app/src/common/shared/org/mozilla/vrbrowser/search/suggestions/SuggestionsClient.java:24 | `selectObjectResponseParser` returns null for every engine (SuggestionParser.java:24-36), and the client applies it directly | any JSON-object response, e.g. `{}` from any engine | an object response yields an empty suggestion list until object parsers exist | not executed | SuggestionParser.ObjectResponsesFail | SuggestionParser.ObjectResponsesEmpty |
