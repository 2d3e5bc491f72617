/**
 * The browser side of the external-VR shared memory (`ExternalVR`): the
 * system state the browser publishes to Gecko (display name, capability
 * flags, controllers, frame counters) and the presentation state it derives
 * from the browser state Gecko writes back.
 *
 * The layout constants of the shared-memory header (its version, its size,
 * the display-name and controller-array lengths) are not part of this model
 * and are passed in as a `Layout`. Mutexes and condition variables are left
 * out: a push copies the system state, a pull copies the browser state.
 */
module ExternalVRState {
  import opened Wrappers

  // ---------------------------------------------------------------------------
  // Presentation
  // ---------------------------------------------------------------------------

  /** `VRLayerType`; a zeroed layer has type `LayerNone`. */
  datatype LayerType = LayerNone | Layer2DContent | LayerStereoImmersive

  /** The parts of `VRBrowserState` the browser reads: the flags and layer 0. */
  datatype BrowserState = BrowserState(
    presentationActive: bool,
    navigationTransitionActive: bool,
    layer0Type: LayerType,
    layer0FrameId: nat)

  const ZeroBrowserState: BrowserState := BrowserState(false, false, LayerNone, 0)

  /** `IsPresenting`: WebXR/WebVR content is presenting, navigating between pages, or showing an immersive layer. */
  predicate IsPresenting(b: BrowserState)
  {
    b.presentationActive || b.navigationTransitionActive || b.layer0Type == LayerStereoImmersive
  }

  datatype VRState = NotPresenting | LinkTraversal | Loading | Rendering

  /** The fields that decide the VR state. */
  datatype Presentation = Presentation(
    browser: BrowserState,
    firstPresentingFrame: bool,
    waitingForExit: bool,
    lastFrameId: nat)

  /** `GetVRState`: the first matching case in priority order. */
  function GetVRState(p: Presentation): VRState
  {
    if !IsPresenting(p.browser) then NotPresenting
    else if p.browser.navigationTransitionActive then LinkTraversal
    else if p.firstPresentingFrame || p.waitingForExit || p.browser.layer0Type != LayerStereoImmersive then Loading
    else Rendering
  }

  /** Each VR state holds exactly under its condition. */
  lemma GetVRStateCases(p: Presentation)
    ensures GetVRState(p) == NotPresenting <==> !IsPresenting(p.browser)
    ensures GetVRState(p) == LinkTraversal <==> p.browser.navigationTransitionActive
    ensures GetVRState(p) == Rendering <==>
      p.browser.layer0Type == LayerStereoImmersive && !p.browser.navigationTransitionActive &&
      !p.firstPresentingFrame && !p.waitingForExit
    ensures GetVRState(p) == Loading <==>
      IsPresenting(p.browser) && !p.browser.navigationTransitionActive &&
      (p.firstPresentingFrame || p.waitingForExit || p.browser.layer0Type != LayerStereoImmersive)
  {
  }

  /** `PullBrowserStateWhileLocked`: copy Gecko's browser state and record the presenting edges. */
  function Pull(p: Presentation, incoming: BrowserState): Presentation
  {
    var was := IsPresenting(p.browser);
    var now := IsPresenting(incoming);
    var p1 := p.(browser := incoming);
    var p2 := if (!was && now) || incoming.navigationTransitionActive then p1.(firstPresentingFrame := true) else p1;
    if was && !now then p2.(lastFrameId := incoming.layer0FrameId, waitingForExit := false) else p2
  }

  /** The first frame after presentation starts is never reported as rendering. */
  lemma PresentEdgeLoads(p: Presentation, incoming: BrowserState)
    requires !IsPresenting(p.browser) && IsPresenting(incoming)
    ensures Pull(p, incoming).firstPresentingFrame
    ensures GetVRState(Pull(p, incoming)) == LinkTraversal || GetVRState(Pull(p, incoming)) == Loading
  {
  }

  /**
   * A navigation between pages marks the next frame as the first presenting
   * one: the state is a link traversal, and the pull after it, still
   * presenting without a navigation, reports loading rather than rendering.
   */
  lemma NavigationMarksFirstFrame(p: Presentation, incoming: BrowserState, next: BrowserState)
    requires incoming.navigationTransitionActive
    ensures Pull(p, incoming).firstPresentingFrame
    ensures GetVRState(Pull(p, incoming)) == LinkTraversal
    ensures IsPresenting(next) && !next.navigationTransitionActive ==>
      GetVRState(Pull(Pull(p, incoming), next)) == Loading
  {
  }

  /** When presentation ends, the last immersive frame id is remembered and the exit wait is over. */
  lemma ExitEdgeRecordsFrame(p: Presentation, incoming: BrowserState)
    requires IsPresenting(p.browser) && !IsPresenting(incoming)
    ensures Pull(p, incoming).lastFrameId == incoming.layer0FrameId
    ensures !Pull(p, incoming).waitingForExit
    ensures GetVRState(Pull(p, incoming)) == NotPresenting
  {
  }

  /** A pull never clears the first-frame flag and copies the browser state verbatim. */
  lemma PullMonotone(p: Presentation, incoming: BrowserState)
    ensures Pull(p, incoming).browser == incoming
    ensures p.firstPresentingFrame ==> Pull(p, incoming).firstPresentingFrame
    ensures IsPresenting(p.browser) == IsPresenting(incoming) && !incoming.navigationTransitionActive ==>
      Pull(p, incoming) == p.(browser := incoming)
  {
  }

  /** After `StopPresenting`, the state is never rendering until presentation ends. */
  lemma StopPresentingNeverRenders(p: Presentation, incoming: BrowserState)
    ensures GetVRState(p.(waitingForExit := true)) != Rendering
    ensures IsPresenting(p.browser) && IsPresenting(incoming) ==>
      GetVRState(Pull(p.(waitingForExit := true), incoming)) != Rendering
  {
  }

  // ---------------------------------------------------------------------------
  // Capability flags
  // ---------------------------------------------------------------------------

  /** The device flags (`device::CapabilityFlags`). */
  const DevicePosition: bv32 := 1 << 1
  const DeviceOrientation: bv32 := 1 << 2
  const DevicePresent: bv32 := 1 << 3
  const DeviceAngularAcceleration: bv32 := 1 << 5
  const DeviceLinearAcceleration: bv32 := 1 << 6
  const DeviceStageParameters: bv32 := 1 << 7
  const DeviceMountDetection: bv32 := 1 << 8

  /** Gecko's `VRDisplayCapabilityFlags`. */
  const CapPosition: bv16 := 1 << 1
  const CapOrientation: bv16 := 1 << 2
  const CapPresent: bv16 := 1 << 3
  const CapAngularAcceleration: bv16 := 1 << 5
  const CapLinearAcceleration: bv16 := 1 << 6
  const CapStageParameters: bv16 := 1 << 7
  const CapMountDetection: bv16 := 1 << 8

  const AllCaps: bv16 := CapPosition | CapOrientation | CapPresent | CapAngularAcceleration
    | CapLinearAcceleration | CapStageParameters | CapMountDetection

  function Bit(on: bool, cap: bv16): bv16
  {
    if on then cap else 0
  }

  /** The display capability flags for a device's flags. */
  function MapCapabilities(f: bv32): (r: bv16)
    ensures (r & CapPosition != 0) <==> (f & DevicePosition != 0)
    ensures (r & CapOrientation != 0) <==> (f & DeviceOrientation != 0)
    ensures (r & CapPresent != 0) <==> (f & DevicePresent != 0)
    ensures (r & CapAngularAcceleration != 0) <==> (f & DeviceAngularAcceleration != 0)
    ensures (r & CapLinearAcceleration != 0) <==> (f & DeviceLinearAcceleration != 0)
    ensures (r & CapStageParameters != 0) <==> (f & DeviceStageParameters != 0)
    ensures (r & CapMountDetection != 0) <==> (f & DeviceMountDetection != 0)
    ensures r & !AllCaps == 0
  {
    Bit(f & DevicePosition != 0, CapPosition)
    | Bit(f & DeviceOrientation != 0, CapOrientation)
    | Bit(f & DevicePresent != 0, CapPresent)
    | Bit(f & DeviceAngularAcceleration != 0, CapAngularAcceleration)
    | Bit(f & DeviceLinearAcceleration != 0, CapLinearAcceleration)
    | Bit(f & DeviceStageParameters != 0, CapStageParameters)
    | Bit(f & DeviceMountDetection != 0, CapMountDetection)
  }

  // ---------------------------------------------------------------------------
  // The display name
  // ---------------------------------------------------------------------------

  /** The length of the C string in `s`: the index of its first NUL, or `|s|`. */
  function CLength(s: seq<char>): (n: nat)
    ensures n <= |s|
    ensures forall i :: 0 <= i < n ==> s[i] != '\0'
    ensures n < |s| ==> s[n] == '\0'
  {
    if s == [] then 0 else if s[0] == '\0' then 0 else 1 + CLength(s[1..])
  }

  /** The C string held in a character buffer. */
  function CString(s: seq<char>): seq<char>
  {
    s[..CLength(s)]
  }

  /**
   * `SetDeviceName`: an empty name leaves the buffer alone; otherwise
   * `strncpy` of `|buf| - 1` characters followed by a NUL in the last slot.
   */
  function NameBuffer(buf: seq<char>, name: string): (r: seq<char>)
    requires |buf| >= 1
    ensures |r| == |buf|
  {
    if name == [] then buf
    else seq(|buf|, i requires 0 <= i < |buf| => if i < |buf| - 1 && i < CLength(name) then name[i] else '\0')
  }

  /** The name read back from the buffer is the given name, cut at its first NUL and at `|buf| - 1` characters. */
  lemma NameBufferReadsBack(buf: seq<char>, name: string)
    requires |buf| >= 1 && name != []
    ensures var k := if CLength(name) < |buf| - 1 then CLength(name) else |buf| - 1;
      CString(NameBuffer(buf, name)) == name[..k]
    ensures NameBuffer(buf, name)[|buf| - 1] == '\0'
  {
    var r := NameBuffer(buf, name);
    var k := if CLength(name) < |buf| - 1 then CLength(name) else |buf| - 1;
    CLengthAt(r, k);
    assert r[..k] == name[..k];
  }

  lemma {:induction false} CLengthAt(s: seq<char>, k: nat)
    requires k < |s| && s[k] == '\0'
    requires forall i :: 0 <= i < k ==> s[i] != '\0'
    ensures CLength(s) == k
  {
    if k > 0 {
      assert s[0] != '\0';
      assert forall i :: 0 <= i < k - 1 ==> s[1..][i] == s[i + 1];
      CLengthAt(s[1..], k - 1);
    }
  }

  // ---------------------------------------------------------------------------
  // Controllers
  // ---------------------------------------------------------------------------

  /** A browser-side controller, as far as the immersive state copies it. */
  datatype Controller = Controller(
    immersiveName: string,
    enabled: bool,
    numButtons: nat,
    pressedState: nat,
    touchedState: nat,
    triggerValues: seq<real>,
    numAxes: nat,
    axes: seq<real>,
    leftHanded: bool)

  datatype Hand = HandNone | HandLeft | HandRight

  /** One slot of the shared controller array (pose orientation left out). */
  datatype ControllerState = ControllerState(
    name: string,
    numButtons: nat,
    buttonPressed: nat,
    buttonTouched: nat,
    triggerValue: seq<real>,
    numAxes: nat,
    axisValue: seq<real>,
    hand: Hand,
    orientationCapable: bool,
    isOrientationValid: bool)

  /** A zeroed slot. */
  const EmptySlot: ControllerState := ControllerState("", 0, 0, 0, [], 0, [], HandNone, false, false)

  predicate Copyable(c: Controller)
  {
    c.numButtons <= |c.triggerValues| && c.numAxes <= |c.axes|
  }

  /** The slot a controller fills: empty for an unnamed or disabled controller. */
  function Slot(c: Controller): ControllerState
    requires Copyable(c)
  {
    if c.immersiveName == [] || !c.enabled then EmptySlot
    else ControllerState(c.immersiveName, c.numButtons, c.pressedState, c.touchedState,
                         c.triggerValues[..c.numButtons], c.numAxes, c.axes[..c.numAxes],
                         if c.leftHanded then HandLeft else HandRight, true, true)
  }

  /** The whole controller array after a frame: slot `i` belongs to controller `i`, the rest are zeroed. */
  function Slots(cs: seq<Controller>, n: nat): (r: seq<ControllerState>)
    requires |cs| <= n && forall i :: 0 <= i < |cs| ==> Copyable(cs[i])
    ensures |r| == n
  {
    seq(n, i requires 0 <= i < n => if i < |cs| then Slot(cs[i]) else EmptySlot)
  }

  /** A slot is filled exactly for a named, enabled controller, and keeps its position and name. */
  lemma SlotsCases(cs: seq<Controller>, n: nat, i: nat)
    requires |cs| <= n && forall j :: 0 <= j < |cs| ==> Copyable(cs[j])
    requires i < n
    ensures Slots(cs, n)[i] != EmptySlot <==> i < |cs| && cs[i].immersiveName != [] && cs[i].enabled
    ensures Slots(cs, n)[i] != EmptySlot ==>
      Slots(cs, n)[i].name == cs[i].immersiveName && Slots(cs, n)[i].isOrientationValid &&
      (Slots(cs, n)[i].hand == HandLeft <==> cs[i].leftHanded)
  {
  }

  // ---------------------------------------------------------------------------
  // The shared state
  // ---------------------------------------------------------------------------

  /** Header constants of the shared memory. */
  datatype Layout = Layout(version: int, size: int, nameMaxLen: nat, controllerMaxCount: nat)

  /** What a push publishes: the system state without the poses. */
  datatype SystemSnapshot = SystemSnapshot(
    displayName: seq<char>,
    capabilityFlags: bv16,
    sensorFlags: bv16,
    suppressFrames: bool,
    lastSubmittedFrameId: nat,
    presentingGeneration: nat,
    connected: bool,
    mounted: bool,
    inputFrameId: nat,
    controllers: seq<ControllerState>)

  /** What `SetCompositorEnabled` does to the outside world, in order. */
  datatype Signal = Published(state: SystemSnapshot) | PauseCompositor | ResumeCompositor

  /** The system state as `memset` leaves it. */
  function ZeroSystem(layout: Layout): SystemSnapshot
  {
    SystemSnapshot(seq(layout.nameMaxLen, _ => '\0'), 0, 0, false, 0, 0, false, false, 0,
                   seq(layout.controllerMaxCount, _ => EmptySlot))
  }

  /** The system state after `Reset`: zeroed, but connected and mounted. */
  function ResetSystem(layout: Layout): SystemSnapshot
  {
    ZeroSystem(layout).(connected := true, mounted := true)
  }

  const Two32: int := 0x1_0000_0000
  const Two64: int := 0x1_0000_0000_0000_0000

  class ExternalVR {
    const layout: Layout
    const displayName: array<char>
    const controllers: array<ControllerState>
    var version: int
    var size: int
    var capabilityFlags: bv16
    var sensorFlags: bv16
    var suppressFrames: bool
    var lastSubmittedFrameId: nat
    var presentingGeneration: nat
    var connected: bool
    var mounted: bool
    var inputFrameId: nat
    var published: SystemSnapshot
    var browser: BrowserState
    var deviceCapabilities: bv32
    var lastFrameId: nat
    var firstPresentingFrame: bool
    var compositorEnabled: bool
    var waitingForExit: bool

    predicate Valid()
      reads this
    {
      layout.nameMaxLen >= 1 && displayName.Length == layout.nameMaxLen &&
      controllers.Length == layout.controllerMaxCount
    }

    function System(): SystemSnapshot
      reads this, displayName, controllers
    {
      SystemSnapshot(displayName[..], capabilityFlags, sensorFlags, suppressFrames, lastSubmittedFrameId,
                     presentingGeneration, connected, mounted, inputFrameId, controllers[..])
    }

    function PresentationState(): Presentation
      reads this
    {
      Presentation(browser, firstPresentingFrame, waitingForExit, lastFrameId)
    }

    /**
     * The constructor: `Reset`, then a push. Every instance shares one
     * process-wide `State`, and `Reset` leaves its device capabilities and
     * compositor flag alone, so those keep the values the shared state
     * already holds: the capabilities are 0 for the first instance, and the
     * compositor flag is never initialised by the source. Both are parameters.
     */
    constructor (aLayout: Layout, sharedCapabilities: bv32, sharedCompositorEnabled: bool)
      requires aLayout.nameMaxLen >= 1
      ensures Valid() && layout == aLayout && fresh(displayName) && fresh(controllers)
      ensures version == aLayout.version && size == aLayout.size
      ensures System() == ResetSystem(aLayout)
      ensures PresentationState() == Presentation(ZeroBrowserState, false, false, 0)
      ensures deviceCapabilities == sharedCapabilities && compositorEnabled == sharedCompositorEnabled
      ensures published == System()
    {
      layout := aLayout;
      displayName := new char[aLayout.nameMaxLen](_ => '\0');
      controllers := new ControllerState[aLayout.controllerMaxCount](_ => EmptySlot);
      version := aLayout.version;
      size := aLayout.size;
      capabilityFlags := 0;
      sensorFlags := 0;
      suppressFrames := false;
      lastSubmittedFrameId := 0;
      presentingGeneration := 0;
      connected := true;
      mounted := true;
      inputFrameId := 0;
      browser := ZeroBrowserState;
      deviceCapabilities := sharedCapabilities;
      lastFrameId := 0;
      firstPresentingFrame := false;
      compositorEnabled := sharedCompositorEnabled;
      waitingForExit := false;
      new;
      published := System();
    }

    /** `State::Reset`: zero the shared, system and browser state, then set the header and the display flags. */
    method Reset()
      requires Valid()
      modifies this, displayName, controllers
      ensures Valid()
      ensures version == layout.version && size == layout.size
      ensures System() == ResetSystem(layout) && published == ZeroSystem(layout)
      ensures PresentationState() == Presentation(ZeroBrowserState, false, false, 0)
      ensures deviceCapabilities == old(deviceCapabilities) && compositorEnabled == old(compositorEnabled)
    {
      ClearBuffers();
      ResetFields();
      ClearPublished();
    }

    /** The `memset` of the shared data: the published system state is zeroed. */
    method ClearPublished()
      modifies `published
      ensures published == ZeroSystem(layout)
    {
      published := ZeroSystem(layout);
    }

    /** The scalar half of `Reset`. */
    method ResetFields()
      modifies `version, `size, `capabilityFlags, `sensorFlags, `suppressFrames, `lastSubmittedFrameId,
        `presentingGeneration, `inputFrameId, `browser, `connected, `mounted, `lastFrameId,
        `firstPresentingFrame, `waitingForExit
      ensures version == layout.version && size == layout.size
      ensures capabilityFlags == 0 && sensorFlags == 0 && !suppressFrames && lastSubmittedFrameId == 0
      ensures presentingGeneration == 0 && connected && mounted && inputFrameId == 0
      ensures PresentationState() == Presentation(ZeroBrowserState, false, false, 0)
    {
      version := layout.version;
      size := layout.size;
      capabilityFlags := 0;
      sensorFlags := 0;
      suppressFrames := false;
      lastSubmittedFrameId := 0;
      presentingGeneration := 0;
      inputFrameId := 0;
      browser := ZeroBrowserState;
      connected := true;
      mounted := true;
      lastFrameId := 0;
      firstPresentingFrame := false;
      waitingForExit := false;
    }

    method ClearBuffers()
      modifies displayName, controllers
      ensures displayName[..] == seq(displayName.Length, _ => '\0')
      ensures controllers[..] == seq(controllers.Length, _ => EmptySlot)
    {
      forall i | 0 <= i < displayName.Length {
        displayName[i] := '\0';
      }
      forall i | 0 <= i < controllers.Length {
        controllers[i] := EmptySlot;
      }
    }

    method PushSystemState()
      modifies this
      ensures published == System()
      ensures System() == old(System()) && PresentationState() == old(PresentationState())
      ensures compositorEnabled == old(compositorEnabled) && deviceCapabilities == old(deviceCapabilities)
      ensures version == old(version) && size == old(size)
    {
      published := System();
    }

    method PullBrowserState(incoming: BrowserState)
      modifies this
      ensures PresentationState() == Pull(old(PresentationState()), incoming)
      ensures System() == old(System()) && published == old(published)
      ensures version == old(version) && size == old(size)
      ensures deviceCapabilities == old(deviceCapabilities) && compositorEnabled == old(compositorEnabled)
    {
      var wasPresenting := IsPresenting(browser);
      browser := incoming;
      if (!wasPresenting && IsPresenting(browser)) || browser.navigationTransitionActive {
        firstPresentingFrame := true;
      }
      if wasPresenting && !IsPresenting(browser) {
        lastFrameId := browser.layer0FrameId;
        waitingForExit := false;
      }
    }

    method CurrentVRState() returns (s: VRState)
      ensures s == GetVRState(PresentationState())
    {
      s := GetVRState(PresentationState());
    }

    /** Copies the name into the fixed display-name buffer, as `strncpy` followed by a final NUL. */
    method SetDeviceName(name: string)
      requires Valid()
      modifies displayName
      ensures displayName[..] == NameBuffer(old(displayName[..]), name)
    {
      if |name| == 0 {
        return;
      }
      var n := displayName.Length;
      var k := CLength(name);
      var i := 0;
      while i < n - 1
        invariant 0 <= i <= n - 1
        invariant forall j :: 0 <= j < i ==> displayName[j] == (if j < k then name[j] else '\0')
        invariant forall j :: i <= j < n ==> displayName[j] == old(displayName[j])
      {
        displayName[i] := if i < k then name[i] else '\0';
        i := i + 1;
      }
      displayName[n - 1] := '\0';
    }

    method SetCapabilityFlags(flags: bv32)
      modifies this
      ensures deviceCapabilities == flags
      ensures capabilityFlags == MapCapabilities(flags) && sensorFlags == capabilityFlags
      ensures System() == old(System()).(capabilityFlags := MapCapabilities(flags), sensorFlags := MapCapabilities(flags))
      ensures suppressFrames == old(suppressFrames) && PresentationState() == old(PresentationState())
      ensures published == old(published) && compositorEnabled == old(compositorEnabled)
      ensures version == old(version) && size == old(size)
    {
      var result: bv16 := 0;
      if DevicePosition & flags != 0 {
        result := result | CapPosition;
      }
      if DeviceOrientation & flags != 0 {
        result := result | CapOrientation;
      }
      if DevicePresent & flags != 0 {
        result := result | CapPresent;
      }
      if DeviceAngularAcceleration & flags != 0 {
        result := result | CapAngularAcceleration;
      }
      if DeviceLinearAcceleration & flags != 0 {
        result := result | CapLinearAcceleration;
      }
      if DeviceStageParameters & flags != 0 {
        result := result | CapStageParameters;
      }
      if DeviceMountDetection & flags != 0 {
        result := result | CapMountDetection;
      }
      deviceCapabilities := flags;
      capabilityFlags := result;
      sensorFlags := capabilityFlags;
    }

    /**
     * Enabling resumes the compositor. Disabling publishes a state with frames
     * suppressed and both frame ids reset, pauses the compositor, then
     * publishes again with frames no longer suppressed.
     */
    method SetCompositorEnabled(enabled: bool) returns (signals: seq<Signal>)
      modifies this
      ensures compositorEnabled == enabled
      ensures enabled == old(compositorEnabled) ==> signals == [] && System() == old(System()) && lastFrameId == old(lastFrameId)
      ensures enabled == old(compositorEnabled) ==> published == old(published)
      ensures enabled && !old(compositorEnabled) ==>
        signals == [ResumeCompositor] && System() == old(System()) &&
        lastFrameId == old(lastFrameId) && published == old(published)
      ensures !enabled && old(compositorEnabled) ==>
        && System() == old(System()).(lastSubmittedFrameId := 0, suppressFrames := false)
        && lastFrameId == 0
        && signals == [Published(System().(suppressFrames := true)), PauseCompositor, Published(System())]
        && published == System()
      ensures browser == old(browser) && firstPresentingFrame == old(firstPresentingFrame) && waitingForExit == old(waitingForExit)
      ensures deviceCapabilities == old(deviceCapabilities) && version == old(version) && size == old(size)
    {
      signals := [];
      if enabled == compositorEnabled {
        return;
      }
      compositorEnabled := enabled;
      if enabled {
        signals := [ResumeCompositor];
      } else {
        suppressFrames := true;
        lastSubmittedFrameId := 0;
        lastFrameId := 0;
        PushSystemState();
        signals := [Published(published), PauseCompositor];
        suppressFrames := false;
        PushSystemState();
        signals := signals + [Published(published)];
      }
    }

    /** `StopPresenting`: a new presenting generation (a 32-bit counter), published, then wait for the exit. */
    method StopPresenting()
      modifies this
      ensures presentingGeneration == (old(presentingGeneration) + 1) % Two32
      ensures waitingForExit && published == System()
      ensures System() == old(System()).(presentingGeneration := (old(presentingGeneration) + 1) % Two32)
      ensures PresentationState() == old(PresentationState()).(waitingForExit := true)
      ensures version == old(version) && size == old(size)
      ensures deviceCapabilities == old(deviceCapabilities) && compositorEnabled == old(compositorEnabled)
    {
      presentingGeneration := (presentingGeneration + 1) % Two32;
      PushSystemState();
      waitingForExit := true;
    }

    /**
     * The non-geometric part of `PushFramePoses`: bump the input frame id (a
     * 64-bit counter), report the last frame id as submitted, rebuild the
     * controller array and publish.
     */
    method PushFramePoses(cs: seq<Controller>)
      requires Valid()
      requires |cs| <= controllers.Length && forall i :: 0 <= i < |cs| ==> Copyable(cs[i])
      modifies this, controllers
      ensures Valid()
      ensures controllers[..] == Slots(cs, controllers.Length)
      ensures inputFrameId == (old(inputFrameId) + 1) % Two64
      ensures lastSubmittedFrameId == lastFrameId && lastFrameId == old(lastFrameId)
      ensures published == System() && displayName[..] == old(displayName[..])
      ensures System() == old(System()).(inputFrameId := (old(inputFrameId) + 1) % Two64,
                                         lastSubmittedFrameId := old(lastFrameId),
                                         controllers := Slots(cs, controllers.Length))
      ensures PresentationState() == old(PresentationState())
      ensures version == old(version) && size == old(size)
      ensures deviceCapabilities == old(deviceCapabilities) && compositorEnabled == old(compositorEnabled)
    {
      inputFrameId := (inputFrameId + 1) % Two64;
      lastSubmittedFrameId := lastFrameId;
      FillControllers(cs);
      PushSystemState();
    }

    /** The controller loop of `PushFramePoses`: zero every slot, then fill slot `i` from controller `i`. */
    method FillControllers(cs: seq<Controller>)
      requires |cs| <= controllers.Length && forall i :: 0 <= i < |cs| ==> Copyable(cs[i])
      modifies controllers
      ensures controllers[..] == Slots(cs, controllers.Length)
    {
      forall j | 0 <= j < controllers.Length {
        controllers[j] := EmptySlot;
      }
      var i := 0;
      while i < |cs|
        invariant 0 <= i <= |cs|
        invariant forall j :: 0 <= j < i ==> controllers[j] == Slot(cs[j])
        invariant forall j :: i <= j < controllers.Length ==> controllers[j] == EmptySlot
      {
        var c := cs[i];
        if c.immersiveName == [] || !c.enabled {
          i := i + 1;
          continue;
        }
        controllers[i] := ControllerState(c.immersiveName, c.numButtons, c.pressedState, c.touchedState,
                                          c.triggerValues[..c.numButtons], c.numAxes, c.axes[..c.numAxes],
                                          if c.leftHanded then HandLeft else HandRight, true, true);
        i := i + 1;
      }
      assert controllers[..] == Slots(cs, controllers.Length);
    }
  }
}
