/**
 * The media state mirror (`Media`): it caches the last value of every
 * media-element callback and forwards each callback, unchanged, to at most
 * one delegate. `unload` marks the media unloaded and drops the delegate.
 *
 * Delegates are Java interfaces; here a delegate is an opaque identity and a
 * forwarded callback is returned as a `Call` value addressed to it.
 */
module MediaMirror {
  import opened Wrappers
  import opened JavaLang

  /** The engine's media element a `Media` wraps (opaque). */
  type ElementId = nat

  /** A registered `MediaElement.Delegate` (opaque). */
  type DelegateId = nat

  /**
   * The numeric GeckoView constants the mirror starts from. Their values are
   * defined by GeckoView's `MediaElement`, which is not part of this model.
   */
  datatype EngineCodes = EngineCodes(
    mediaStateLoading: int,
    mediaStatePlaying: int,
    readyStateHaveNothing: int)

  /** `MediaElement.Metadata`, restricted to the fields the browser reads. */
  datatype Metadata = Metadata(
    currentSource: string,
    width: real,
    height: real,
    duration: real,
    isSeekable: bool,
    videoTrackCount: int,
    audioTrackCount: int)

  datatype TimeRange = TimeRange(start: real, end: real)

  /** `MediaElement.LoadProgressInfo`; `buffered` is a nullable array. */
  datatype LoadProgressInfo = LoadProgressInfo(loadedBytes: int, totalBytes: int, buffered: Option<seq<TimeRange>>)

  /** One `MediaElement.Delegate` callback with its payload. */
  datatype Event =
    | PlaybackStateChange(playbackState: int)
    | ReadyStateChange(readyState: int)
    | MetadataChange(metaData: Metadata)
    | LoadProgress(progressInfo: LoadProgressInfo)
    | VolumeChange(volume: real, muted: bool)
    | TimeChange(time: real)
    | PlaybackRateChange(rate: real)
    | FullscreenChange(fullscreen: bool)
    | Error(code: int)

  /** A callback the mirror makes on its delegate, with the element it was given. */
  datatype Call = Call(delegate: DelegateId, element: ElementId, event: Event)

  /** A command sent to the engine's media element (`seek`, `play`, ...). */
  datatype ElementCommand = Seek(time: real) | Play | Pause | SetVolume(volume: real) | SetMuted(muted: bool)

  /** The cached attributes of the media element. */
  datatype Cache = Cache(
    duration: real,
    fullscreen: bool,
    currentTime: real,
    metaData: Option<Metadata>,
    playbackRate: real,
    readyState: int,
    playbackState: int,
    volume: real,
    muted: bool)

  /** The whole observable state of a `Media`. */
  datatype Mirror = Mirror(cache: Cache, delegate: Option<DelegateId>, unloaded: bool)

  /**
   * The field values of a fresh `Media`. The ready state starts at the
   * playback-state constant and the playback state at the ready-state
   * constant, exactly as the source declares them.
   */
  function InitialMirror(codes: EngineCodes): (m: Mirror)
    ensures m.cache.duration == -1.0 && m.cache.currentTime == 0.0
    ensures m.cache.playbackRate == 1.0 && m.cache.volume == 1.0
    ensures !m.cache.muted && !m.cache.fullscreen && !m.unloaded
    ensures m.cache.metaData == None && m.delegate == None
    ensures m.cache.readyState == codes.mediaStateLoading
    ensures m.cache.playbackState == codes.readyStateHaveNothing
  {
    Mirror(Cache(-1.0, false, 0.0, None, 1.0, codes.mediaStateLoading, codes.readyStateHaveNothing, 1.0, false), None, false)
  }

  /** The cache after a callback has stored its argument. */
  function Cached(c: Cache, e: Event): Cache
  {
    match e
    case PlaybackStateChange(s) => c.(playbackState := s)
    case ReadyStateChange(s) => c.(readyState := s)
    case MetadataChange(m) => c.(metaData := Some(m))
    case LoadProgress(_) => c
    case VolumeChange(v, muted) => c.(volume := v, muted := muted)
    case TimeChange(t) => c.(currentTime := t)
    case PlaybackRateChange(r) => c.(playbackRate := r)
    case FullscreenChange(f) => c.(fullscreen := f)
    case Error(_) => c
  }

  /** The call forwarded for a callback: to the current delegate, if there is one. */
  function Forwarded(delegate: Option<DelegateId>, element: ElementId, e: Event): Option<Call>
  {
    if delegate.Some? then Some(Call(delegate.value, element, e)) else None
  }

  /** Each callback stores its argument and nothing else; no callback touches the duration. */
  lemma CachedStoresArgument(c: Cache, e: Event)
    ensures Cached(c, e).duration == c.duration
    ensures e.LoadProgress? || e.Error? ==> Cached(c, e) == c
    ensures e.VolumeChange? ==> Cached(c, e) == c.(volume := e.volume, muted := e.muted)
    ensures e.TimeChange? ==> Cached(c, e) == c.(currentTime := e.time)
    ensures e.PlaybackStateChange? ==> Cached(c, e) == c.(playbackState := e.playbackState)
    ensures e.ReadyStateChange? ==> Cached(c, e) == c.(readyState := e.readyState)
    ensures e.MetadataChange? ==> Cached(c, e) == c.(metaData := Some(e.metaData))
    ensures e.PlaybackRateChange? ==> Cached(c, e) == c.(playbackRate := e.rate)
    ensures e.FullscreenChange? ==> Cached(c, e) == c.(fullscreen := e.fullscreen)
  {
  }

  /** A call is forwarded exactly when a delegate is set, and it carries the callback unchanged. */
  lemma ForwardedIffDelegate(delegate: Option<DelegateId>, element: ElementId, e: Event)
    ensures Forwarded(delegate, element, e).Some? <==> delegate.Some?
    ensures delegate.Some? ==> Forwarded(delegate, element, e).value == Call(delegate.value, element, e)
  {
  }

  // ---------------------------------------------------------------------------
  // Traces: what a mirror does over a sequence of operations
  // ---------------------------------------------------------------------------

  /** An operation on a `Media`: a callback from the engine, `setDelegate`, or `unload`. */
  datatype Op = Deliver(element: ElementId, event: Event) | SetDelegate(delegate: Option<DelegateId>) | Unload

  /** The mirror after one operation, with the call it forwards. */
  function Step(m: Mirror, op: Op): (Mirror, Option<Call>)
  {
    match op
    case Deliver(el, e) => (m.(cache := Cached(m.cache, e)), Forwarded(m.delegate, el, e))
    case SetDelegate(d) => (m.(delegate := d), None)
    case Unload => (m.(unloaded := true, delegate := None), None)
  }

  /** The state after a trace of operations. */
  function Run(m: Mirror, ops: seq<Op>): Mirror
    decreases |ops|
  {
    if ops == [] then m else Run(Step(m, ops[0]).0, ops[1..])
  }

  /** The calls forwarded over a trace, in order. */
  function Calls(m: Mirror, ops: seq<Op>): seq<Call>
    decreases |ops|
  {
    if ops == [] then []
    else
      var (m', c) := Step(m, ops[0]);
      (if c.Some? then [c.value] else []) + Calls(m', ops[1..])
  }

  predicate NoSetDelegate(ops: seq<Op>)
  {
    forall i :: 0 <= i < |ops| ==> !ops[i].SetDelegate?
  }

  /** No operation ever assigns the duration: it keeps its initial value -1 forever. */
  lemma {:induction false} DurationAlwaysUnknown(codes: EngineCodes, ops: seq<Op>)
    ensures Run(InitialMirror(codes), ops).cache.duration == -1.0
  {
    DurationPreserved(InitialMirror(codes), ops);
  }

  lemma {:induction false} DurationPreserved(m: Mirror, ops: seq<Op>)
    ensures Run(m, ops).cache.duration == m.cache.duration
    decreases |ops|
  {
    if ops != [] {
      DurationPreserved(Step(m, ops[0]).0, ops[1..]);
    }
  }

  /**
   * Once unloaded, the mirror forwards nothing until a delegate is set again,
   * and it stays unloaded; the callbacks still update the cache.
   */
  lemma {:induction false} UnloadSilences(m: Mirror, ops: seq<Op>)
    requires NoSetDelegate(ops)
    ensures Calls(Step(m, Unload).0, ops) == []
    ensures Run(Step(m, Unload).0, ops).unloaded
    ensures Run(Step(m, Unload).0, ops).delegate == None
  {
    SilentWithoutDelegate(Step(m, Unload).0, ops);
  }

  lemma {:induction false} SilentWithoutDelegate(m: Mirror, ops: seq<Op>)
    requires m.delegate == None && m.unloaded
    requires NoSetDelegate(ops)
    ensures Calls(m, ops) == []
    ensures Run(m, ops).unloaded && Run(m, ops).delegate == None
    decreases |ops|
  {
    if ops != [] {
      assert !ops[0].SetDelegate?;
      SilentWithoutDelegate(Step(m, ops[0]).0, ops[1..]);
    }
  }

  /** The callbacks of a trace, as the delegate would receive them from `d`. */
  function CallsTo(d: DelegateId, ops: seq<Op>): seq<Call>
    requires forall i :: 0 <= i < |ops| ==> ops[i].Deliver?
  {
    seq(|ops|, i requires 0 <= i < |ops| => Call(d, ops[i].element, ops[i].event))
  }

  /**
   * With a delegate attached, every callback is forwarded exactly once, in
   * order and unchanged, even when it repeats the cached value.
   */
  lemma {:induction false} ForwardsEveryCallback(m: Mirror, ops: seq<Op>)
    requires m.delegate.Some?
    requires forall i :: 0 <= i < |ops| ==> ops[i].Deliver?
    ensures Calls(m, ops) == CallsTo(m.delegate.value, ops)
    decreases |ops|
  {
    if ops != [] {
      var m' := Step(m, ops[0]).0;
      assert m'.delegate == m.delegate;
      ForwardsEveryCallback(m', ops[1..]);
      assert CallsTo(m.delegate.value, ops) == [Call(m.delegate.value, ops[0].element, ops[0].event)] + CallsTo(m.delegate.value, ops[1..]);
    }
  }

  /** `setDelegate` replaces the single delegate: later callbacks go to the new one only. */
  lemma SetDelegateReplaces(m: Mirror, d: Option<DelegateId>, element: ElementId, e: Event)
    ensures Step(Step(m, SetDelegate(d)).0, Deliver(element, e)).1 == Forwarded(d, element, e)
  {
  }

  /** `getWidth` / `getHeight`: 0 without metadata, else the dimension cast to int. */
  function Dimension(metaData: Option<Metadata>, width: bool): (r: int)
    ensures IsInt32(r)
    ensures metaData.None? ==> r == 0
    ensures metaData.Some? ==>
      var x := if width then metaData.value.width else metaData.value.height;
      0.0 <= x < IntMax as real ==> r as real <= x < r as real + 1.0
  {
    if metaData.None? then 0
    else DoubleToInt(if width then metaData.value.width else metaData.value.height)
  }

  // ---------------------------------------------------------------------------
  // The mutable object
  // ---------------------------------------------------------------------------

  class Media {
    const element: ElementId
    var duration: real
    var isFullscreen: bool
    var currentTime: real
    var metaData: Option<Metadata>
    var playbackRate: real
    var readyState: int
    var playbackState: int
    var volume: real
    var isMuted: bool
    var isUnloaded: bool
    var delegate: Option<DelegateId>

    /** The fields of this object as a value. */
    function State(): Mirror
      reads this
    {
      Mirror(Cache(duration, isFullscreen, currentTime, metaData, playbackRate, readyState, playbackState, volume, isMuted),
             delegate, isUnloaded)
    }

    constructor (aElement: ElementId, codes: EngineCodes)
      ensures element == aElement
      ensures State() == InitialMirror(codes)
    {
      element := aElement;
      duration := -1.0;
      isFullscreen := false;
      currentTime := 0.0;
      metaData := None;
      playbackRate := 1.0;
      readyState := codes.mediaStateLoading;
      playbackState := codes.readyStateHaveNothing;
      volume := 1.0;
      isMuted := false;
      isUnloaded := false;
      delegate := None;
    }

    method SetDelegate(aDelegate: Option<DelegateId>)
      modifies this
      ensures State() == Step(old(State()), Op.SetDelegate(aDelegate)).0
    {
      delegate := aDelegate;
    }

    method Unload()
      modifies this
      ensures State() == Step(old(State()), Op.Unload).0
      ensures isUnloaded && delegate == None
    {
      isUnloaded := true;
      delegate := None;
    }

    function Width(): (w: int)
      reads this
      ensures w == Dimension(metaData, true)
    {
      Dimension(metaData, true)
    }

    function Height(): (h: int)
      reads this
      ensures h == Dimension(metaData, false)
    {
      Dimension(metaData, false)
    }

    method OnPlaybackStateChange(aElement: ElementId, aPlaybackState: int) returns (call: Option<Call>)
      modifies this
      ensures (State(), call) == Step(old(State()), Deliver(aElement, PlaybackStateChange(aPlaybackState)))
    {
      playbackState := aPlaybackState;
      call := if delegate.Some? then Some(Call(delegate.value, aElement, PlaybackStateChange(aPlaybackState))) else None;
    }

    method OnReadyStateChange(aElement: ElementId, aReadyState: int) returns (call: Option<Call>)
      modifies this
      ensures (State(), call) == Step(old(State()), Deliver(aElement, ReadyStateChange(aReadyState)))
    {
      readyState := aReadyState;
      call := if delegate.Some? then Some(Call(delegate.value, aElement, ReadyStateChange(aReadyState))) else None;
    }

    method OnMetadataChange(aElement: ElementId, aMetaData: Metadata) returns (call: Option<Call>)
      modifies this
      ensures (State(), call) == Step(old(State()), Deliver(aElement, MetadataChange(aMetaData)))
    {
      metaData := Some(aMetaData);
      call := if delegate.Some? then Some(Call(delegate.value, aElement, MetadataChange(aMetaData))) else None;
    }

    method OnLoadProgress(aElement: ElementId, aInfo: LoadProgressInfo) returns (call: Option<Call>)
      modifies this
      ensures (State(), call) == Step(old(State()), Deliver(aElement, LoadProgress(aInfo)))
      ensures State() == old(State())
    {
      call := if delegate.Some? then Some(Call(delegate.value, aElement, LoadProgress(aInfo))) else None;
    }

    method OnVolumeChange(aElement: ElementId, aVolume: real, aMuted: bool) returns (call: Option<Call>)
      modifies this
      ensures (State(), call) == Step(old(State()), Deliver(aElement, VolumeChange(aVolume, aMuted)))
    {
      volume := aVolume;
      isMuted := aMuted;
      call := if delegate.Some? then Some(Call(delegate.value, aElement, VolumeChange(aVolume, aMuted))) else None;
    }

    method OnTimeChange(aElement: ElementId, aTime: real) returns (call: Option<Call>)
      modifies this
      ensures (State(), call) == Step(old(State()), Deliver(aElement, TimeChange(aTime)))
    {
      currentTime := aTime;
      call := if delegate.Some? then Some(Call(delegate.value, aElement, TimeChange(aTime))) else None;
    }

    method OnPlaybackRateChange(aElement: ElementId, aRate: real) returns (call: Option<Call>)
      modifies this
      ensures (State(), call) == Step(old(State()), Deliver(aElement, PlaybackRateChange(aRate)))
    {
      playbackRate := aRate;
      call := if delegate.Some? then Some(Call(delegate.value, aElement, PlaybackRateChange(aRate))) else None;
    }

    method OnFullscreenChange(aElement: ElementId, aFullscreen: bool) returns (call: Option<Call>)
      modifies this
      ensures (State(), call) == Step(old(State()), Deliver(aElement, FullscreenChange(aFullscreen)))
    {
      isFullscreen := aFullscreen;
      call := if delegate.Some? then Some(Call(delegate.value, aElement, FullscreenChange(aFullscreen))) else None;
    }

    method OnError(aElement: ElementId, aCode: int) returns (call: Option<Call>)
      modifies this
      ensures (State(), call) == Step(old(State()), Deliver(aElement, Error(aCode)))
      ensures State() == old(State())
    {
      call := if delegate.Some? then Some(Call(delegate.value, aElement, Error(aCode))) else None;
    }
  }
}
