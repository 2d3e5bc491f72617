/**
 * The media controls panel (`MediaControlsWidget`): it attaches itself as the
 * delegate of one `Media` at a time, shows that media's state on a seek bar,
 * a play button and a volume button, and turns clicks into commands sent to
 * the media element.
 *
 * Java's null dereferences and out-of-range array reads in this widget are
 * modelled as `Err(Crash)` results.
 */
module MediaControls {
  import opened Wrappers
  import opened MediaMirror
  import opened MediaSeekBar

  /** The unchecked exceptions the widget's code can raise. */
  datatype Crash =
    | NullMedia       // a click while no media is attached
    | NullMetadata    // metadata read before the engine reported any
    | EmptyBuffered   // `buffered[length - 1]` on an empty array

  datatype Icon = PlayIcon | PauseIcon | VolumeIcon | MutedIcon

  /** A command to the media element `element` (what `Media.seek`/`play`/... forward). */
  datatype Command = Command(element: ElementId, command: ElementCommand)

  /** The attached media as the widget reads it: its element and its cached state. */
  datatype Attached = Attached(element: ElementId, cache: Cache)

  /**
   * What the panel shows. `None` for an icon or a volume-control value means
   * the panel has not set it yet; the layout's initial value is not part of
   * this model.
   */
  datatype Controls = Controls(
    bar: View,
    playIcon: Option<Icon>,
    volumeIcon: Option<Icon>,
    volumeEnabled: bool,
    volumeShown: Option<real>,
    mutedShown: Option<bool>,
    visible: bool)

  /** The panel after `initialize`: a fresh seek bar with this widget as its delegate. */
  function InitialControls(): (c: Controls)
    ensures ViewValid(c.bar) && c.bar.hasDelegate && c.volumeEnabled && c.visible
  {
    Controls(InitialView().(hasDelegate := true), None, None, true, None, None, true)
  }

  /** The delegate callbacks: how the panel reacts to one media event. */
  function OnEvent(c: Controls, e: Event, codes: EngineCodes): Result<Controls, Crash>
  {
    match e
    case PlaybackStateChange(s) =>
      Ok(c.(playIcon := Some(if s == codes.mediaStatePlaying then PauseIcon else PlayIcon)))
    case MetadataChange(m) =>
      var bar := AfterSetDuration(c.bar, m.duration);
      var c1 :=
        if m.audioTrackCount == 0 then c.(volumeIcon := Some(MutedIcon), volumeEnabled := false)
        else c.(volumeEnabled := true);
      Ok(c1.(bar := AfterSetSeekable(bar, m.isSeekable)))
    case LoadProgress(info) =>
      if info.buffered.None? then Ok(c)
      else if |info.buffered.value| == 0 then Err(EmptyBuffered)
      else Ok(c.(bar := AfterSetBuffered(c.bar, info.buffered.value[|info.buffered.value| - 1].end)))
    case VolumeChange(v, muted) =>
      if !c.volumeEnabled then Ok(c)
      else Ok(c.(volumeIcon := Some(if muted then MutedIcon else VolumeIcon), volumeShown := Some(v), mutedShown := Some(muted)))
    case TimeChange(t) =>
      Ok(c.(bar := AfterSetCurrentTime(c.bar, t)))
    case FullscreenChange(f) =>
      if f then Ok(c) else Ok(c.(visible := false))
    case ReadyStateChange(_) => Ok(c)
    case PlaybackRateChange(_) => Ok(c)
    case Error(_) => Ok(c)
  }

  /** The only callback that can fail is a load-progress report with an empty buffered array. */
  lemma OnEventCrashes(c: Controls, e: Event, codes: EngineCodes)
    ensures OnEvent(c, e, codes).Err? <==>
      e.LoadProgress? && e.progressInfo.buffered.Some? && |e.progressInfo.buffered.value| == 0
  {
  }

  /** The seek bar stays consistent under every callback. */
  lemma OnEventKeepsBarValid(c: Controls, e: Event, codes: EngineCodes)
    requires ViewValid(c.bar)
    ensures OnEvent(c, e, codes).Ok? ==> ViewValid(OnEvent(c, e, codes).value.bar)
  {
    match e {
      case MetadataChange(m) =>
        SetDurationValid(c.bar, m.duration);
        SetSeekableValid(AfterSetDuration(c.bar, m.duration), m.isSeekable);
      case LoadProgress(info) =>
        if info.buffered.Some? && |info.buffered.value| > 0 {
          SetBufferedValid(c.bar, info.buffered.value[|info.buffered.value| - 1].end);
        }
      case TimeChange(t) =>
        SetCurrentTimeValid(c.bar, t);
      case _ =>
    }
  }

  /** The play button shows "pause" exactly while the media plays. */
  lemma PlayIconTracksState(c: Controls, s: int, codes: EngineCodes)
    ensures OnEvent(c, PlaybackStateChange(s), codes).Ok?
    ensures OnEvent(c, PlaybackStateChange(s), codes).value.playIcon == Some(PauseIcon) <==> s == codes.mediaStatePlaying
  {
  }

  /** Media without audio disables the volume button, after which volume reports are ignored. */
  lemma SilentMediaIgnoresVolume(c: Controls, m: Metadata, v: real, muted: bool, codes: EngineCodes)
    requires m.audioTrackCount == 0
    ensures var c1 := OnEvent(c, MetadataChange(m), codes).value;
      !c1.volumeEnabled && c1.volumeIcon == Some(MutedIcon) &&
      OnEvent(c1, VolumeChange(v, muted), codes) == Ok(c1)
  {
  }

  /** With buffered ranges reported, the bar's buffered time is the end of the last range. */
  lemma LoadProgressUsesLastRange(c: Controls, info: LoadProgressInfo, codes: EngineCodes)
    requires info.buffered.Some? && |info.buffered.value| > 0
    ensures OnEvent(c, LoadProgress(info), codes).Ok?
    ensures OnEvent(c, LoadProgress(info), codes).value.bar.buffered == info.buffered.value[|info.buffered.value| - 1].end
  {
  }

  /** Leaving fullscreen hides the panel; entering it changes nothing. */
  lemma FullscreenHides(c: Controls, f: bool, codes: EngineCodes)
    ensures OnEvent(c, FullscreenChange(f), codes).Ok?
    ensures OnEvent(c, FullscreenChange(f), codes).value == (if f then c else c.(visible := false))
  {
  }

  /** The events `setMedia` replays, in order, to show the state a media already has. */
  function PrimingEvents(cache: Cache, m: Metadata): seq<Event>
  {
    [MetadataChange(m), VolumeChange(cache.volume, cache.muted), TimeChange(cache.currentTime),
     VolumeChange(cache.volume, cache.muted), ReadyStateChange(cache.readyState),
     PlaybackStateChange(cache.playbackState)]
  }

  /** Applies callbacks in order, stopping at the first crash. */
  function OnEvents(c: Controls, es: seq<Event>, codes: EngineCodes): Result<Controls, Crash>
    decreases |es|
  {
    if es == [] then Ok(c)
    else
      match OnEvent(c, es[0], codes)
      case Err(x) => Err(x)
      case Ok(c1) => OnEvents(c1, es[1..], codes)
  }

  /**
   * `setMedia`'s replay: it crashes when the media has no metadata yet;
   * otherwise it never crashes and leaves the panel showing the media's
   * duration, seekability, time, play state and (when enabled) volume.
   */
  function Prime(c: Controls, cache: Cache, codes: EngineCodes): Result<Controls, Crash>
  {
    if cache.metaData.None? then Err(NullMetadata)
    else OnEvents(c, PrimingEvents(cache, cache.metaData.value), codes)
  }

  lemma {:induction false} PrimeShowsMedia(c: Controls, cache: Cache, codes: EngineCodes)
    requires ViewValid(c.bar)
    ensures Prime(c, cache, codes).Err? <==> cache.metaData.None?
    ensures cache.metaData.Some? ==>
      var m := cache.metaData.value;
      var r := Prime(c, cache, codes).value;
      && ViewValid(r.bar)
      && r.bar.duration == m.duration
      && r.bar.currentTime == cache.currentTime
      && r.bar.seekable == m.isSeekable
      && r.volumeEnabled == (m.audioTrackCount != 0)
      && (r.volumeEnabled ==> r.volumeShown == Some(cache.volume) && r.mutedShown == Some(cache.muted))
      && (r.playIcon == Some(PauseIcon) <==> cache.playbackState == codes.mediaStatePlaying)
      && r.visible == c.visible
  {
    if cache.metaData.Some? {
      var m := cache.metaData.value;
      var es := PrimingEvents(cache, m);
      var c1 := PrimeMetadata(c, m, codes);
      var c3 := PrimeVolumeAndTime(c1, cache, codes);
      var c6 := PrimeRest(c3, cache, codes);
      OnEventsStep(c, es, codes);
      OnEventsStep(c1, es[1..], codes);
      OnEventsStep(OnEvent(c1, es[1], codes).value, es[2..], codes);
      OnEventsStep(c3, es[3..], codes);
      OnEventsStep(OnEvent(c3, es[3], codes).value, es[4..], codes);
      OnEventsStep(OnEvent(OnEvent(c3, es[3], codes).value, es[4], codes).value, es[5..], codes);
      assert es[5..][1..] == [];
    }
  }

  lemma OnEventsStep(c: Controls, es: seq<Event>, codes: EngineCodes)
    requires es != [] && OnEvent(c, es[0], codes).Ok?
    ensures OnEvents(c, es, codes) == OnEvents(OnEvent(c, es[0], codes).value, es[1..], codes)
  {
  }

  /** The first replayed event: the metadata sets duration, seekability and the volume button. */
  lemma PrimeMetadata(c: Controls, m: Metadata, codes: EngineCodes) returns (c1: Controls)
    requires ViewValid(c.bar)
    ensures OnEvent(c, MetadataChange(m), codes) == Ok(c1)
    ensures ViewValid(c1.bar) && c1.visible == c.visible
    ensures c1.bar.duration == m.duration && c1.bar.seekable == m.isSeekable && c1.bar.currentTime == c.bar.currentTime
    ensures c1.volumeEnabled == (m.audioTrackCount != 0)
  {
    c1 := OnEvent(c, MetadataChange(m), codes).value;
    OnEventKeepsBarValid(c, MetadataChange(m), codes);
    SettersKeepOtherAttributes(c.bar, m.duration, m.isSeekable);
    SettersKeepOtherAttributes(AfterSetDuration(c.bar, m.duration), m.duration, m.isSeekable);
  }

  /** The volume, time and volume events of the replay. */
  lemma PrimeVolumeAndTime(c1: Controls, cache: Cache, codes: EngineCodes) returns (c3: Controls)
    requires ViewValid(c1.bar)
    ensures var c2 := OnEvent(c1, VolumeChange(cache.volume, cache.muted), codes).value;
      OnEvent(c1, VolumeChange(cache.volume, cache.muted), codes).Ok? &&
      OnEvent(c2, TimeChange(cache.currentTime), codes) == Ok(c3)
    ensures ViewValid(c3.bar) && c3.visible == c1.visible && c3.volumeEnabled == c1.volumeEnabled
    ensures c3.bar.duration == c1.bar.duration && c3.bar.seekable == c1.bar.seekable
    ensures c3.bar.currentTime == cache.currentTime
    ensures c3.volumeEnabled ==> c3.volumeShown == Some(cache.volume) && c3.mutedShown == Some(cache.muted)
  {
    var c2 := OnEvent(c1, VolumeChange(cache.volume, cache.muted), codes).value;
    c3 := OnEvent(c2, TimeChange(cache.currentTime), codes).value;
    SetCurrentTimeValid(c2.bar, cache.currentTime);
    SettersKeepOtherAttributes(c2.bar, cache.currentTime, false);
  }

  /** The last volume, ready-state and play-state events of the replay. */
  lemma PrimeRest(c3: Controls, cache: Cache, codes: EngineCodes) returns (c6: Controls)
    ensures var c4 := OnEvent(c3, VolumeChange(cache.volume, cache.muted), codes).value;
      var c5 := OnEvent(c4, ReadyStateChange(cache.readyState), codes).value;
      OnEvent(c3, VolumeChange(cache.volume, cache.muted), codes).Ok? &&
      OnEvent(c4, ReadyStateChange(cache.readyState), codes).Ok? &&
      OnEvent(c5, PlaybackStateChange(cache.playbackState), codes) == Ok(c6)
    ensures c6.bar == c3.bar && c6.visible == c3.visible && c6.volumeEnabled == c3.volumeEnabled
    ensures c6.volumeEnabled ==> c6.volumeShown == Some(cache.volume) && c6.mutedShown == Some(cache.muted)
    ensures c6.playIcon == Some(PauseIcon) <==> cache.playbackState == codes.mediaStatePlaying
  {
    var c4 := OnEvent(c3, VolumeChange(cache.volume, cache.muted), codes).value;
    var c5 := OnEvent(c4, ReadyStateChange(cache.readyState), codes).value;
    c6 := OnEvent(c5, PlaybackStateChange(cache.playbackState), codes).value;
  }

  // ---------------------------------------------------------------------------
  // Clicks: the commands sent to the media element
  // ---------------------------------------------------------------------------

  /** The play button pauses playing media and plays anything else. */
  function PlayClick(a: Option<Attached>, codes: EngineCodes): Result<seq<Command>, Crash>
  {
    if a.None? then Err(NullMedia)
    else if a.value.cache.playbackState == codes.mediaStatePlaying then Ok([Command(a.value.element, Pause)])
    else Ok([Command(a.value.element, Play)])
  }

  /** The seek-back button: ten seconds back, but not before the start. */
  function SeekBackClick(a: Option<Attached>): Result<seq<Command>, Crash>
  {
    if a.None? then Err(NullMedia)
    else
      var t := a.value.cache.currentTime - 10.0;
      Ok([Command(a.value.element, Seek(if 0.0 >= t then 0.0 else t))])
  }

  /** The seek-forward button: thirty seconds on, but not past a known duration. */
  function SeekForwardClick(a: Option<Attached>): Result<seq<Command>, Crash>
  {
    if a.None? then Err(NullMedia)
    else if a.value.cache.metaData.None? then Err(NullMetadata)
    else
      var t := a.value.cache.currentTime + 30.0;
      var d := a.value.cache.metaData.value.duration;
      Ok([Command(a.value.element, Seek(if d > 0.0 && d <= t then d else t))])
  }

  /** A seek requested by dragging the seek bar. */
  function SeekBarSeek(a: Option<Attached>, t: real): Result<seq<Command>, Crash>
  {
    if a.None? then Err(NullMedia) else Ok([Command(a.value.element, Seek(t))])
  }

  /** The volume control: set the volume, and unmute media the cache says is muted. */
  function VolumeControlChange(a: Option<Attached>, v: real): Result<seq<Command>, Crash>
  {
    if a.None? then Err(NullMedia)
    else
      if a.value.cache.muted then Ok([Command(a.value.element, SetVolume(v)), Command(a.value.element, SetMuted(false))])
      else Ok([Command(a.value.element, SetVolume(v))])
  }

  /** The volume button: unmute muted media; otherwise mute it and show the volume control at 0. */
  function VolumeButtonClick(a: Option<Attached>, c: Controls): Result<(seq<Command>, Controls), Crash>
  {
    if a.None? then Err(NullMedia)
    else if a.value.cache.muted then Ok(([Command(a.value.element, SetMuted(false))], c))
    else Ok(([Command(a.value.element, SetMuted(true))], c.(volumeShown := Some(0.0))))
  }

  /** A click on the play button toggles: pause exactly when the media reports it is playing. */
  lemma PlayClickToggles(a: Attached, codes: EngineCodes)
    ensures PlayClick(Some(a), codes).Ok? && |PlayClick(Some(a), codes).value| == 1
    ensures PlayClick(Some(a), codes).value[0].element == a.element
    ensures PlayClick(Some(a), codes).value[0].command == Pause <==> a.cache.playbackState == codes.mediaStatePlaying
    ensures PlayClick(Some(a), codes).value[0].command == Play <==> a.cache.playbackState != codes.mediaStatePlaying
  {
  }

  /** The seek-back target is never negative and at most ten seconds before the current time. */
  lemma SeekBackBounds(a: Attached)
    ensures SeekBackClick(Some(a)).Ok? && |SeekBackClick(Some(a)).value| == 1
    ensures var cmd := SeekBackClick(Some(a)).value[0].command;
      cmd.Seek? && cmd.time >= 0.0 && cmd.time >= a.cache.currentTime - 10.0 &&
      (a.cache.currentTime >= 10.0 ==> cmd.time == a.cache.currentTime - 10.0) &&
      (a.cache.currentTime >= 0.0 ==> cmd.time <= a.cache.currentTime)
    ensures SeekBackClick(Some(a)).value[0] ==
      Command(a.element, Seek(if a.cache.currentTime - 10.0 > 0.0 then a.cache.currentTime - 10.0 else 0.0))
  {
  }

  /**
   * The seek-forward target is thirty seconds on, capped at a positive
   * duration; it crashes when no metadata has been reported.
   */
  lemma SeekForwardBounds(a: Attached)
    ensures SeekForwardClick(Some(a)).Err? <==> a.cache.metaData.None?
    ensures a.cache.metaData.Some? ==>
      var d := a.cache.metaData.value.duration;
      var cmd := SeekForwardClick(Some(a)).value[0].command;
      |SeekForwardClick(Some(a)).value| == 1 && cmd.Seek? &&
      cmd.time <= a.cache.currentTime + 30.0 &&
      (d > 0.0 ==> cmd.time <= d) &&
      (d <= 0.0 || a.cache.currentTime + 30.0 <= d ==> cmd.time == a.cache.currentTime + 30.0)
    ensures a.cache.metaData.Some? ==>
      var d := a.cache.metaData.value.duration;
      var t := a.cache.currentTime + 30.0;
      SeekForwardClick(Some(a)).value[0] == Command(a.element, Seek(if d > 0.0 && t > d then d else t))
  {
  }

  /** Moving the volume control always leaves the media unmuted, and sets the volume first. */
  lemma VolumeControlUnmutes(a: Attached, v: real)
    ensures var r := VolumeControlChange(Some(a), v);
      r.Ok? && r.value[0] == Command(a.element, SetVolume(v)) &&
      (|r.value| == 2 <==> a.cache.muted) &&
      (a.cache.muted ==> r.value[1] == Command(a.element, SetMuted(false)))
  {
  }

  /** The volume button inverts the cached muted flag. */
  lemma VolumeButtonToggles(a: Attached, c: Controls)
    ensures var r := VolumeButtonClick(Some(a), c);
      r.Ok? && r.value.0 == [Command(a.element, SetMuted(!a.cache.muted))] &&
      (!a.cache.muted ==> r.value.1.volumeShown == Some(0.0)) &&
      (a.cache.muted ==> r.value.1 == c)
  {
  }

  /** Every click crashes while no media is attached. */
  lemma ClicksNeedMedia(c: Controls, t: real, codes: EngineCodes)
    ensures PlayClick(None, codes) == Err(NullMedia) && SeekBackClick(None) == Err(NullMedia)
    ensures SeekForwardClick(None) == Err(NullMedia) && SeekBarSeek(None, t) == Err(NullMedia)
    ensures VolumeControlChange(None, t) == Err(NullMedia) && VolumeButtonClick(None, c) == Err(NullMedia)
  {
  }

  // ---------------------------------------------------------------------------
  // The mutable widget
  // ---------------------------------------------------------------------------

  class MediaControlsWidget {
    /** The identity this widget registers under as a media delegate. */
    const id: DelegateId
    const codes: EngineCodes
    const seekBar: SeekBar
    var media: Media?
    var playIcon: Option<Icon>
    var volumeIcon: Option<Icon>
    var volumeEnabled: bool
    var volumeShown: Option<real>
    var mutedShown: Option<bool>
    var visible: bool

    function Ui(): Controls
      reads this, seekBar
    {
      Controls(seekBar.ToView(), playIcon, volumeIcon, volumeEnabled, volumeShown, mutedShown, visible)
    }

    function AttachedMedia(): Option<Attached>
      reads this, media
    {
      if media == null then None else Some(Attached(media.element, media.State().cache))
    }

    predicate Valid()
      reads this, seekBar
    {
      seekBar.Valid() && seekBar.hasDelegate
    }

    constructor (aId: DelegateId, aCodes: EngineCodes)
      ensures Valid() && fresh(seekBar)
      ensures id == aId && codes == aCodes && media == null
      ensures Ui() == InitialControls()
    {
      id := aId;
      codes := aCodes;
      var bar := new SeekBar();
      bar.SetDelegate(true);
      seekBar := bar;
      media := null;
      playIcon := None;
      volumeIcon := None;
      volumeEnabled := true;
      volumeShown := None;
      mutedShown := None;
      visible := true;
    }

    /** One delegate callback; a crash happens before anything changes. */
    method HandleEvent(e: Event) returns (r: Result<(), Crash>)
      requires Valid()
      modifies this, seekBar
      ensures Valid() && media == old(media)
      ensures OnEvent(old(Ui()), e, codes).Ok? ==> r.Ok? && Ui() == OnEvent(old(Ui()), e, codes).value
      ensures OnEvent(old(Ui()), e, codes).Err? ==> r == Err(OnEvent(old(Ui()), e, codes).error) && Ui() == old(Ui())
    {
      r := Ok(());
      match e {
        case PlaybackStateChange(s) =>
          playIcon := Some(if s == codes.mediaStatePlaying then PauseIcon else PlayIcon);
        case MetadataChange(m) =>
          OnMetadataChange(m);
        case LoadProgress(info) =>
          r := OnLoadProgress(info);
        case VolumeChange(v, muted) =>
          if !volumeEnabled {
            return;
          }
          volumeIcon := Some(if muted then MutedIcon else VolumeIcon);
          volumeShown := Some(v);
          mutedShown := Some(muted);
        case TimeChange(t) =>
          ghost var c := Ui();
          seekBar.SetCurrentTime(t);
          assert Ui() == c.(bar := AfterSetCurrentTime(c.bar, t));
        case FullscreenChange(f) =>
          if !f {
            visible := false;
          }
        case ReadyStateChange(_) =>
        case PlaybackRateChange(_) =>
        case Error(_) =>
      }
    }

    method OnMetadataChange(m: Metadata)
      requires Valid()
      modifies this, seekBar
      ensures Valid() && media == old(media)
      ensures Ui() == OnEvent(old(Ui()), MetadataChange(m), codes).value
    {
      ghost var c := Ui();
      seekBar.SetDuration(m.duration);
      if m.audioTrackCount == 0 {
        volumeIcon := Some(MutedIcon);
        volumeEnabled := false;
      } else {
        volumeEnabled := true;
      }
      ghost var bar := seekBar.ToView();
      seekBar.SetSeekable(m.isSeekable);
      assert seekBar.ToView() == AfterSetSeekable(bar, m.isSeekable);
    }

    method OnLoadProgress(info: LoadProgressInfo) returns (r: Result<(), Crash>)
      requires Valid()
      modifies this, seekBar
      ensures Valid() && media == old(media)
      ensures OnEvent(old(Ui()), LoadProgress(info), codes).Ok? ==> r.Ok? && Ui() == OnEvent(old(Ui()), LoadProgress(info), codes).value
      ensures OnEvent(old(Ui()), LoadProgress(info), codes).Err? ==> r == Err(EmptyBuffered) && Ui() == old(Ui())
    {
      r := Ok(());
      if info.buffered.Some? {
        var ranges := info.buffered.value;
        if |ranges| == 0 {
          return Err(EmptyBuffered);
        }
        seekBar.SetBuffered(ranges[|ranges| - 1].end);
      }
    }

    /** Replays the attached media's state through the callbacks (the priming part of `setMedia`). */
    method PrimeFrom(cache: Cache) returns (r: Result<(), Crash>)
      requires Valid()
      modifies this, seekBar
      ensures Valid() && media == old(media)
      ensures Prime(old(Ui()), cache, codes).Ok? ==> r.Ok? && Ui() == Prime(old(Ui()), cache, codes).value
      ensures Prime(old(Ui()), cache, codes).Err? ==> r.Err? && Ui() == old(Ui())
    {
      PrimeShowsMedia(Ui(), cache, codes);
      if cache.metaData.None? {
        return Err(NullMetadata);
      }
      var es := PrimingEvents(cache, cache.metaData.value);
      var i := 0;
      while i < |es|
        invariant 0 <= i <= |es|
        invariant Valid() && media == old(media)
        invariant OnEvents(old(Ui()), es, codes) == OnEvents(Ui(), es[i..], codes)
        invariant OnEvents(Ui(), es[i..], codes).Ok?
        decreases |es| - i
      {
        r := HandleEvent(es[i]);
        assert es[i..][1..] == es[i + 1..];
        i := i + 1;
      }
      assert es[i..] == [];
      r := Ok(());
    }

    /**
     * `setMedia`: detach from the previous media, attach to `aMedia`, replay
     * its state, then register as its delegate. The replay crashes (after the
     * previous media was detached) when `aMedia` has no metadata yet.
     */
    method SetMedia(aMedia: Media?) returns (r: Result<(), Crash>)
      requires Valid()
      modifies this, seekBar, media, aMedia
      ensures Valid() && media == aMedia
      ensures old(media) == aMedia ==> r.Ok? && Ui() == old(Ui()) && (aMedia != null ==> unchanged(aMedia))
      ensures old(media) != aMedia && old(media) != null ==> old(media).State() == old(media.State()).(delegate := None)
      ensures old(media) != aMedia && aMedia == null ==> r.Ok? && Ui() == old(Ui())
      ensures old(media) != aMedia && aMedia != null ==>
        && aMedia.State() == old(aMedia.State()).(delegate := aMedia.delegate)
        && (r.Ok? <==> Prime(old(Ui()), old(aMedia.State().cache), codes).Ok?)
        && (r.Ok? ==> Ui() == Prime(old(Ui()), old(aMedia.State().cache), codes).value)
        && (r.Ok? ==> aMedia.delegate == Some(id))
        && (r.Err? ==> aMedia.delegate == old(aMedia.delegate))
        && (r.Err? ==> Ui() == old(Ui()))
    {
      if media == aMedia {
        return Ok(());
      }
      if media != null {
        media.SetDelegate(None);
      }
      media := aMedia;
      if aMedia == null {
        return Ok(());
      }
      r := PrimeFrom(aMedia.State().cache);
      if r.Err? {
        return;
      }
      aMedia.SetDelegate(Some(id));
    }

    method OnPlayClick() returns (r: Result<seq<Command>, Crash>)
      ensures r == PlayClick(AttachedMedia(), codes)
    {
      if media == null {
        return Err(NullMedia);
      }
      if media.playbackState == codes.mediaStatePlaying {
        r := Ok([Command(media.element, Pause)]);
      } else {
        r := Ok([Command(media.element, Play)]);
      }
    }

    method OnSeekBackClick() returns (r: Result<seq<Command>, Crash>)
      ensures r == SeekBackClick(AttachedMedia())
    {
      if media == null {
        return Err(NullMedia);
      }
      var t := media.currentTime - 10.0;
      r := Ok([Command(media.element, Seek(if 0.0 >= t then 0.0 else t))]);
    }

    method OnSeekForwardClick() returns (r: Result<seq<Command>, Crash>)
      ensures r == SeekForwardClick(AttachedMedia())
    {
      if media == null {
        return Err(NullMedia);
      }
      var t := media.currentTime + 30.0;
      if media.metaData.None? {
        return Err(NullMetadata);
      }
      if media.metaData.value.duration > 0.0 {
        t := if media.metaData.value.duration <= t then media.metaData.value.duration else t;
      }
      r := Ok([Command(media.element, Seek(t))]);
    }

    method OnVolumeButtonClick() returns (r: Result<seq<Command>, Crash>)
      modifies this
      ensures media == old(media)
      ensures var expected := VolumeButtonClick(old(AttachedMedia()), old(Ui()));
        (expected.Ok? ==> r == Ok(expected.value.0) && Ui() == expected.value.1) &&
        (expected.Err? ==> r == Err(expected.error) && Ui() == old(Ui()))
    {
      if media == null {
        return Err(NullMedia);
      }
      if media.isMuted {
        r := Ok([Command(media.element, SetMuted(false))]);
      } else {
        r := Ok([Command(media.element, SetMuted(true))]);
        volumeShown := Some(0.0);
      }
    }

    method OnVolumeControlChange(v: real) returns (r: Result<seq<Command>, Crash>)
      ensures r == VolumeControlChange(AttachedMedia(), v)
    {
      if media == null {
        return Err(NullMedia);
      }
      if media.isMuted {
        r := Ok([Command(media.element, SetVolume(v)), Command(media.element, SetMuted(false))]);
      } else {
        r := Ok([Command(media.element, SetVolume(v))]);
      }
    }

    /** The seek bar's progress callback, routed to the media when it came from the user. */
    method OnSeekBarProgress(progress: int, fromUser: bool) returns (r: Result<seq<Command>, Crash>)
      requires Valid()
      ensures SeekTarget(seekBar.ToView(), progress, fromUser).None? ==> r == Ok([])
      ensures SeekTarget(seekBar.ToView(), progress, fromUser).Some? ==>
        r == SeekBarSeek(AttachedMedia(), SeekTarget(seekBar.ToView(), progress, fromUser).value)
    {
      var seek := seekBar.OnProgressChanged(progress, fromUser);
      if seek.None? {
        return Ok([]);
      }
      if media == null {
        return Err(NullMedia);
      }
      r := Ok([Command(media.element, Seek(seek.value))]);
    }
  }
}
