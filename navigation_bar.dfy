/**
 * The navigation bar's mode machine (`NavigationBarWidget`): three guarded
 * modes (fullscreen, resize, VR video), each of which registers a back
 * handler with the widget manager on entry and removes it on exit; fullscreen
 * also dims the world with two brightness entries. Around the modes sit the
 * back, reload and loading rules and the width the bar takes from the browser
 * window.
 *
 * The widget manager's stacks live in `VRBrowserActivity`, which is not part
 * of this model: a push appends and a pop removes the last occurrence of its
 * argument. Calls into the browser widget, the session store and the media
 * controls are returned as `Effect` values.
 */
module NavigationBar {
  import opened Wrappers
  import opened JavaLang

  datatype Handler = FullScreenBack | ResizeBack | VRVideoBack | OtherHandler(id: nat)

  datatype BrightnessOwner = NavigationBarOwner | BrightnessMenuOwner | OtherOwner(id: nat)

  datatype BrightnessEntry = BrightnessEntry(owner: BrightnessOwner, level: real)

  datatype ReloadIcon = ReloadIcon | StopIcon

  /** A call on a collaborator: the session store, the browser widget, the media controls or the widget manager. */
  datatype Effect =
    | GoBack | UnstackSession | StopLoad | Reload | ExitSessionFullScreen
    | StartWidgetResize | FinishWidgetResize
    | HideBrowser | ShowBrowser
    | EnableVRVideoMode(width: int, height: int) | DisableVRVideoMode
    | AttachMediaControls(media: Option<nat>)
    | ShowVRVideo(projection: int) | HideVRVideo

  /** The fullscreen video the session store reports: an identity and its `getWidth()`/`getHeight()`. */
  datatype Video = Video(id: nat, width: int, height: int)

  /** Resource dimensions and the manager's dim level; their values come from resources not in this model. */
  datatype Dims = Dims(defaultWorldWidth: real, barWidthDp: int, dimBrightness: real)

  // ---------------------------------------------------------------------------
  // The manager's stacks
  // ---------------------------------------------------------------------------

  function Count(s: seq<Handler>, h: Handler): nat
  {
    if s == [] then 0 else Count(s[..|s| - 1], h) + (if s[|s| - 1] == h then 1 else 0)
  }

  /** `removeLastOccurrence(h)`. */
  function RemoveLast(s: seq<Handler>, h: Handler): seq<Handler>
  {
    if s == [] then []
    else if s[|s| - 1] == h then s[..|s| - 1]
    else RemoveLast(s[..|s| - 1], h) + [s[|s| - 1]]
  }

  function CountOwner(s: seq<BrightnessEntry>, o: BrightnessOwner): nat
  {
    if s == [] then 0 else CountOwner(s[..|s| - 1], o) + (if s[|s| - 1].owner == o then 1 else 0)
  }

  /** Removes the last brightness entry pushed by `o`. */
  function PopOwner(s: seq<BrightnessEntry>, o: BrightnessOwner): seq<BrightnessEntry>
  {
    if s == [] then []
    else if s[|s| - 1].owner == o then s[..|s| - 1]
    else PopOwner(s[..|s| - 1], o) + [s[|s| - 1]]
  }

  /** Popping removes exactly one occurrence of the handler, if there is one, and no other handler. */
  lemma {:induction false} RemoveLastCount(s: seq<Handler>, h: Handler, k: Handler)
    ensures Count(RemoveLast(s, h), k) == if k == h && Count(s, h) > 0 then Count(s, k) - 1 else Count(s, k)
    decreases |s|
  {
    if s != [] {
      var init := s[..|s| - 1];
      if s[|s| - 1] != h {
        RemoveLastCount(init, h, k);
        assert RemoveLast(s, h)[..|RemoveLast(s, h)| - 1] == RemoveLast(init, h);
      }
    }
  }

  /** Pushing a handler and popping it again restores the stack. */
  lemma PopAfterPush(s: seq<Handler>, h: Handler)
    ensures RemoveLast(s + [h], h) == s
  {
    assert (s + [h])[..|s|] == s;
  }

  lemma CountPush(s: seq<Handler>, h: Handler, k: Handler)
    ensures Count(s + [h], k) == Count(s, k) + (if h == k then 1 else 0)
  {
    assert (s + [h])[..|s|] == s;
  }

  lemma {:induction false} PopOwnerCount(s: seq<BrightnessEntry>, o: BrightnessOwner, p: BrightnessOwner)
    ensures CountOwner(PopOwner(s, o), p) == if p == o && CountOwner(s, o) > 0 then CountOwner(s, p) - 1 else CountOwner(s, p)
    decreases |s|
  {
    if s != [] {
      var init := s[..|s| - 1];
      if s[|s| - 1].owner != o {
        PopOwnerCount(init, o, p);
        assert PopOwner(s, o)[..|PopOwner(s, o)| - 1] == PopOwner(init, o);
      }
    }
  }

  lemma CountOwnerPush(s: seq<BrightnessEntry>, e: BrightnessEntry, p: BrightnessOwner)
    ensures CountOwner(s + [e], p) == CountOwner(s, p) + (if e.owner == p then 1 else 0)
  {
    assert (s + [e])[..|s|] == s;
  }

  // ---------------------------------------------------------------------------
  // The bar's state
  // ---------------------------------------------------------------------------

  datatype Nav = Nav(
    loading: bool,
    fullscreen: bool,
    resizing: bool,
    vrVideo: bool,
    visible: bool,
    worldWidth: real,
    width: int,
    backEnabled: bool,
    reloadIcon: ReloadIcon,
    handlers: seq<Handler>,
    brightness: seq<BrightnessEntry>,
    trayVisible: bool)

  /** The new state with the calls made on the way. */
  datatype Step = Step(nav: Nav, effects: seq<Effect>)

  /** Each mode owns exactly one back handler while active and none otherwise; fullscreen owns two brightness entries. */
  predicate NavValid(n: Nav)
  {
    && Count(n.handlers, FullScreenBack) == (if n.fullscreen then 1 else 0)
    && Count(n.handlers, ResizeBack) == (if n.resizing then 1 else 0)
    && Count(n.handlers, VRVideoBack) == (if n.vrVideo then 1 else 0)
    && CountOwner(n.brightness, NavigationBarOwner) == (if n.fullscreen then 1 else 0)
    && CountOwner(n.brightness, BrightnessMenuOwner) == (if n.fullscreen then 1 else 0)
  }

  function EnterFullScreen(n: Nav, d: Dims, selectedBrightness: real): Step
  {
    if n.fullscreen then Step(n, [])
    else
      Step(n.(handlers := n.handlers + [FullScreenBack],
              fullscreen := true,
              brightness := n.brightness + [BrightnessEntry(NavigationBarOwner, d.dimBrightness)]
                                         + [BrightnessEntry(BrightnessMenuOwner, selectedBrightness)],
              trayVisible := false), [])
  }

  function ExitFullScreen(n: Nav, sessionInFullScreen: bool): Step
  {
    if !n.fullscreen then Step(n, [])
    else
      Step(n.(fullscreen := false,
              handlers := RemoveLast(n.handlers, FullScreenBack),
              brightness := PopOwner(PopOwner(n.brightness, NavigationBarOwner), BrightnessMenuOwner),
              trayVisible := true),
           if sessionInFullScreen then [ExitSessionFullScreen] else [])
  }

  function EnterResize(n: Nav): Step
  {
    if n.resizing then Step(n, [])
    else Step(n.(resizing := true, handlers := n.handlers + [ResizeBack]), [StartWidgetResize])
  }

  /**
   * `exitResizeMode`; the browser-widget update it schedules after the fade
   * is applied at the end, with the browser's current world width.
   */
  function ExitResize(n: Nav, d: Dims, browserWorldWidth: real): Step
    requires d.defaultWorldWidth > 0.0
  {
    if !n.resizing then Step(n, [])
    else
      var n1 := n.(resizing := false, handlers := RemoveLast(n.handlers, ResizeBack));
      Step(WidgetUpdate(n1, d, true, browserWorldWidth), [FinishWidgetResize])
  }

  /** VR video mode is enabled on the browser only for a video with a positive size. */
  function EnterVRVideo(n: Nav, projection: int, video: Option<Video>): Step
  {
    if n.vrVideo then Step(n, [])
    else
      var sized := video.Some? && video.value.width > 0 && video.value.height > 0;
      Step(n.(vrVideo := true, handlers := n.handlers + [VRVideoBack], visible := false),
           [HideBrowser] +
           (if sized then [EnableVRVideoMode(video.value.width, video.value.height)] else []) +
           [AttachMediaControls(if video.Some? then Some(video.value.id) else None), ShowVRVideo(projection)])
  }

  function ExitVRVideo(n: Nav): Step
  {
    if !n.vrVideo then Step(n, [])
    else
      Step(n.(vrVideo := false, handlers := RemoveLast(n.handlers, VRVideoBack), visible := true),
           [HideVRVideo, DisableVRVideoMode, ShowBrowser])
  }

  /** `onFullScreen`: entering enters fullscreen if needed and leaves resize mode; leaving exits fullscreen. */
  function AfterFullScreen(n: Nav, d: Dims, full: bool, selectedBrightness: real, sessionInFullScreen: bool, browserWorldWidth: real): Step
    requires d.defaultWorldWidth > 0.0
  {
    if full then
      var s1 := if !n.fullscreen then EnterFullScreen(n, d, selectedBrightness) else Step(n, []);
      if s1.nav.resizing then
        var s2 := ExitResize(s1.nav, d, browserWorldWidth);
        Step(s2.nav, s1.effects + s2.effects)
      else s1
    else ExitFullScreen(n, sessionInFullScreen)
  }

  /** The bar's world width: the browser's, clamped to `[default, 1.5 * default]`. */
  function ClampedWorldWidth(target: real, d: Dims): (w: real)
    requires d.defaultWorldWidth > 0.0
    ensures d.defaultWorldWidth <= w <= d.defaultWorldWidth * 1.5
    ensures d.defaultWorldWidth <= target <= d.defaultWorldWidth * 1.5 ==> w == target
    ensures target < d.defaultWorldWidth ==> w == d.defaultWorldWidth
    ensures target > d.defaultWorldWidth * 1.5 ==> w == d.defaultWorldWidth * 1.5
  {
    var t := if d.defaultWorldWidth >= target then d.defaultWorldWidth else target;
    if t <= d.defaultWorldWidth * 1.5 then t else d.defaultWorldWidth * 1.5
  }

  /** `onWidgetUpdate`: only updates of the browser widget outside resize mode resize the bar. */
  function WidgetUpdate(n: Nav, d: Dims, fromBrowser: bool, browserWorldWidth: real): Nav
    requires d.defaultWorldWidth > 0.0
  {
    if !fromBrowser || n.resizing then n
    else
      var w := ClampedWorldWidth(browserWorldWidth, d);
      n.(worldWidth := w, width := BarPixelWidth(d.barWidthDp, w / d.defaultWorldWidth))
  }

  /** The bar's pixel width for a ratio of world widths: the dp width scaled, then cast to `int`. */
  function BarPixelWidth(dp: int, ratio: real): int
  {
    DoubleToInt(dp as real * ratio)
  }

  /** The bar's pixel width scales with its world width: between the default width and one and a half times it. */
  lemma WidgetUpdateBounds(n: Nav, d: Dims, fromBrowser: bool, browserWorldWidth: real)
    requires d.defaultWorldWidth > 0.0 && 0 <= d.barWidthDp <= IntMax / 2
    ensures var r := WidgetUpdate(n, d, fromBrowser, browserWorldWidth);
      (!fromBrowser || n.resizing ==> r == n) &&
      (fromBrowser && !n.resizing ==>
        r.worldWidth == ClampedWorldWidth(browserWorldWidth, d) &&
        d.barWidthDp <= r.width && r.width as real <= d.barWidthDp as real * 1.5)
  {
    if fromBrowser && !n.resizing {
      WidgetUpdateWidth(n, d, browserWorldWidth);
    }
  }

  lemma WidgetUpdateWidth(n: Nav, d: Dims, target: real)
    requires d.defaultWorldWidth > 0.0 && 0 <= d.barWidthDp <= IntMax / 2 && !n.resizing
    ensures d.barWidthDp <= WidgetUpdate(n, d, true, target).width
    ensures WidgetUpdate(n, d, true, target).width as real <= d.barWidthDp as real * 1.5
  {
    var w := ClampedWorldWidth(target, d);
    var ratio := w / d.defaultWorldWidth;
    RatioBounds(w, d.defaultWorldWidth);
    BarPixelWidthBounds(d.barWidthDp, ratio);
  }

  /** For a ratio in `[1, 1.5]` the pixel width lies between the dp width and one and a half times it. */
  lemma BarPixelWidthBounds(b: int, ratio: real)
    requires 0 <= b <= IntMax / 2 && 1.0 <= ratio <= 1.5
    ensures b <= BarPixelWidth(b, ratio) && BarPixelWidth(b, ratio) as real <= b as real * 1.5
  {
    ScaledBounds(b, ratio);
  }

  lemma ScaledBounds(b: int, ratio: real)
    requires 0 <= b <= IntMax / 2 && 1.0 <= ratio <= 1.5
    ensures b <= DoubleToInt(b as real * ratio) && DoubleToInt(b as real * ratio) as real <= b as real * 1.5
  {
    ScaledLower(b, ratio);
    ScaledUpper(b, ratio);
  }

  lemma ScaledLower(b: int, ratio: real)
    requires 0 <= b <= IntMax / 2 && 1.0 <= ratio <= 1.5
    ensures b <= DoubleToInt(b as real * ratio)
  {
    ScaledLowerReal(b as real, ratio);
    IntGap(b, DoubleToInt(b as real * ratio));
  }

  lemma ScaledUpper(b: int, ratio: real)
    requires 0 <= b && 1.0 <= ratio <= 1.5
    ensures DoubleToInt(b as real * ratio) as real <= b as real * 1.5
  {
    ScaledUpperReal(b as real, ratio);
  }

  lemma ScaledLowerReal(lo: real, ratio: real)
    requires 0.0 <= lo <= (IntMax / 2) as real && 1.0 <= ratio <= 1.5
    ensures lo - 1.0 < DoubleToInt(lo * ratio) as real
  {
    MulBetween(lo, ratio);
    TruncLower(lo, lo * ratio);
  }

  lemma ScaledUpperReal(lo: real, ratio: real)
    requires 0.0 <= lo && 1.0 <= ratio <= 1.5
    ensures DoubleToInt(lo * ratio) as real <= lo * 1.5
  {
    MulBetween(lo, ratio);
    TruncUpper(lo * ratio, lo * 1.5);
  }

  /** Truncating a non-negative value below the int range loses less than one. */
  lemma TruncLower(lo: real, x: real)
    requires 0.0 <= lo <= x < IntMax as real
    ensures lo - 1.0 < DoubleToInt(x) as real
  {
  }

  /** Truncating a non-negative value never rounds it up. */
  lemma TruncUpper(x: real, hi: real)
    requires 0.0 <= x <= hi
    ensures DoubleToInt(x) as real <= hi
  {
  }

  lemma IntGap(b: int, k: int)
    requires b as real - 1.0 < k as real
    ensures b <= k
  {
  }

  lemma MulBetween(b: real, ratio: real)
    requires b >= 0.0 && 1.0 <= ratio <= 1.5
    ensures b <= b * ratio <= b * 1.5
  {
    NonNegMul(b, ratio - 1.0);
    NonNegMul(b, 1.5 - ratio);
    assert b * (ratio - 1.0) == b * ratio - b;
    assert b * (1.5 - ratio) == b * 1.5 - b * ratio;
  }

  lemma NonNegMul(a: real, b: real)
    requires a >= 0.0 && b >= 0.0
    ensures a * b >= 0.0
  {
  }

  /** A width clamped to `[D, 1.5 * D]` has a ratio to `D` in `[1, 1.5]`. */
  lemma RatioBounds(w: real, D: real)
    requires D > 0.0 && D <= w <= D * 1.5
    ensures 1.0 <= w / D <= 1.5
  {
  }

  // ---------------------------------------------------------------------------
  // Properties of the mode machine
  // ---------------------------------------------------------------------------

  /** Every mode change keeps each mode's handler and brightness registrations in step with its flag. */
  lemma {:induction false} ModesPreserveValid(n: Nav, d: Dims, sel: real, inFull: bool, projection: int, video: Option<Video>, bw: real, full: bool)
    requires NavValid(n) && d.defaultWorldWidth > 0.0
    ensures NavValid(EnterFullScreen(n, d, sel).nav)
    ensures NavValid(ExitFullScreen(n, inFull).nav)
    ensures NavValid(EnterResize(n).nav)
    ensures NavValid(ExitResize(n, d, bw).nav)
    ensures NavValid(EnterVRVideo(n, projection, video).nav)
    ensures NavValid(ExitVRVideo(n).nav)
    ensures NavValid(AfterFullScreen(n, d, full, sel, inFull, bw).nav)
  {
    EnterFullScreenValid(n, d, sel);
    ExitFullScreenValid(n, inFull);
    EnterResizeValid(n);
    ExitResizeValid(n, d, bw);
    EnterVRVideoValid(n, projection, video);
    ExitVRVideoValid(n);
    if full && !n.fullscreen {
      ExitResizeValid(EnterFullScreen(n, d, sel).nav, d, bw);
    } else if full {
      ExitResizeValid(n, d, bw);
    }
  }

  lemma EnterFullScreenValid(n: Nav, d: Dims, sel: real)
    requires NavValid(n)
    ensures NavValid(EnterFullScreen(n, d, sel).nav)
  {
    if !n.fullscreen {
      var e1 := BrightnessEntry(NavigationBarOwner, d.dimBrightness);
      var e2 := BrightnessEntry(BrightnessMenuOwner, sel);
      CountPush(n.handlers, FullScreenBack, FullScreenBack);
      CountPush(n.handlers, FullScreenBack, ResizeBack);
      CountPush(n.handlers, FullScreenBack, VRVideoBack);
      CountOwnerPush(n.brightness, e1, NavigationBarOwner);
      CountOwnerPush(n.brightness, e1, BrightnessMenuOwner);
      CountOwnerPush(n.brightness + [e1], e2, NavigationBarOwner);
      CountOwnerPush(n.brightness + [e1], e2, BrightnessMenuOwner);
    }
  }

  lemma ExitFullScreenValid(n: Nav, inFull: bool)
    requires NavValid(n)
    ensures NavValid(ExitFullScreen(n, inFull).nav)
  {
    if n.fullscreen {
      RemoveLastCount(n.handlers, FullScreenBack, FullScreenBack);
      RemoveLastCount(n.handlers, FullScreenBack, ResizeBack);
      RemoveLastCount(n.handlers, FullScreenBack, VRVideoBack);
      var b1 := PopOwner(n.brightness, NavigationBarOwner);
      PopOwnerCount(n.brightness, NavigationBarOwner, NavigationBarOwner);
      PopOwnerCount(n.brightness, NavigationBarOwner, BrightnessMenuOwner);
      PopOwnerCount(b1, BrightnessMenuOwner, NavigationBarOwner);
      PopOwnerCount(b1, BrightnessMenuOwner, BrightnessMenuOwner);
    }
  }

  lemma EnterResizeValid(n: Nav)
    requires NavValid(n)
    ensures NavValid(EnterResize(n).nav)
  {
    if !n.resizing {
      CountPush(n.handlers, ResizeBack, FullScreenBack);
      CountPush(n.handlers, ResizeBack, ResizeBack);
      CountPush(n.handlers, ResizeBack, VRVideoBack);
    }
  }

  lemma ExitResizeValid(n: Nav, d: Dims, bw: real)
    requires NavValid(n) && d.defaultWorldWidth > 0.0
    ensures NavValid(ExitResize(n, d, bw).nav)
  {
    if n.resizing {
      RemoveLastCount(n.handlers, ResizeBack, FullScreenBack);
      RemoveLastCount(n.handlers, ResizeBack, ResizeBack);
      RemoveLastCount(n.handlers, ResizeBack, VRVideoBack);
    }
  }

  lemma EnterVRVideoValid(n: Nav, projection: int, video: Option<Video>)
    requires NavValid(n)
    ensures NavValid(EnterVRVideo(n, projection, video).nav)
  {
    if !n.vrVideo {
      CountPush(n.handlers, VRVideoBack, FullScreenBack);
      CountPush(n.handlers, VRVideoBack, ResizeBack);
      CountPush(n.handlers, VRVideoBack, VRVideoBack);
    }
  }

  lemma ExitVRVideoValid(n: Nav)
    requires NavValid(n)
    ensures NavValid(ExitVRVideo(n).nav)
  {
    if n.vrVideo {
      RemoveLastCount(n.handlers, VRVideoBack, FullScreenBack);
      RemoveLastCount(n.handlers, VRVideoBack, ResizeBack);
      RemoveLastCount(n.handlers, VRVideoBack, VRVideoBack);
    }
  }

  /** Entering a mode that is already active, or leaving one that is not, changes nothing and calls nothing. */
  lemma GuardsAreNoOps(n: Nav, d: Dims, sel: real, inFull: bool, projection: int, video: Option<Video>, bw: real)
    requires d.defaultWorldWidth > 0.0
    ensures n.fullscreen ==> EnterFullScreen(n, d, sel) == Step(n, [])
    ensures !n.fullscreen ==> ExitFullScreen(n, inFull) == Step(n, [])
    ensures n.resizing ==> EnterResize(n) == Step(n, [])
    ensures !n.resizing ==> ExitResize(n, d, bw) == Step(n, [])
    ensures n.vrVideo ==> EnterVRVideo(n, projection, video) == Step(n, [])
    ensures !n.vrVideo ==> ExitVRVideo(n) == Step(n, [])
  {
  }

  /** Entering and then leaving fullscreen restores the back-handler and brightness stacks. */
  lemma FullScreenRoundTrip(n: Nav, d: Dims, sel: real, inFull: bool)
    requires NavValid(n) && !n.fullscreen
    ensures var m := ExitFullScreen(EnterFullScreen(n, d, sel).nav, inFull).nav;
      !m.fullscreen && m.handlers == n.handlers && m.brightness == n.brightness && m.trayVisible
  {
    var e1 := BrightnessEntry(NavigationBarOwner, d.dimBrightness);
    var e2 := BrightnessEntry(BrightnessMenuOwner, sel);
    var b := n.brightness + [e1] + [e2];
    PopAfterPush(n.handlers, FullScreenBack);
    assert b[..|b| - 1] == n.brightness + [e1];
    assert PopOwner(b, NavigationBarOwner) == PopOwner(n.brightness + [e1], NavigationBarOwner) + [e2];
    assert (n.brightness + [e1])[..|n.brightness|] == n.brightness;
    assert PopOwner(b, NavigationBarOwner) == n.brightness + [e2];
    assert (n.brightness + [e2])[..|n.brightness|] == n.brightness;
  }

  /** Entering and then leaving resize or VR-video mode restores the back-handler stack. */
  lemma ModeRoundTrips(n: Nav, d: Dims, projection: int, video: Option<Video>, bw: real)
    requires d.defaultWorldWidth > 0.0
    ensures !n.resizing ==> ExitResize(EnterResize(n).nav, d, bw).nav.handlers == n.handlers
    ensures !n.vrVideo ==> ExitVRVideo(EnterVRVideo(n, projection, video).nav).nav.handlers == n.handlers
    ensures !n.vrVideo ==> ExitVRVideo(EnterVRVideo(n, projection, video).nav).nav.visible
  {
    PopAfterPush(n.handlers, ResizeBack);
    PopAfterPush(n.handlers, VRVideoBack);
  }

  /** The browser's VR video mode is requested exactly for a fullscreen video with a positive width and height. */
  lemma VRVideoNeedsSize(n: Nav, projection: int, video: Option<Video>)
    requires !n.vrVideo
    ensures var s := EnterVRVideo(n, projection, video);
      (exists i :: 0 <= i < |s.effects| && s.effects[i].EnableVRVideoMode?) <==>
        video.Some? && video.value.width > 0 && video.value.height > 0
    ensures var s := EnterVRVideo(n, projection, video);
      s.effects[|s.effects| - 1] == ShowVRVideo(projection) && s.nav.vrVideo && !s.nav.visible
  {
    var s := EnterVRVideo(n, projection, video);
    if video.Some? && video.value.width > 0 && video.value.height > 0 {
      assert s.effects[1].EnableVRVideoMode?;
    } else {
      assert |s.effects| == 3;
      assert !s.effects[0].EnableVRVideoMode? && !s.effects[1].EnableVRVideoMode? && !s.effects[2].EnableVRVideoMode?;
    }
  }

  /** After `onFullScreen(true)` the bar is fullscreen and not resizing; after `onFullScreen(false)` it is not fullscreen. */
  lemma OnFullScreenModes(n: Nav, d: Dims, full: bool, sel: real, inFull: bool, bw: real)
    requires d.defaultWorldWidth > 0.0
    ensures var m := AfterFullScreen(n, d, full, sel, inFull, bw).nav;
      (full ==> m.fullscreen && !m.resizing) && (!full ==> !m.fullscreen && m.resizing == n.resizing)
  {
  }

  // ---------------------------------------------------------------------------
  // Buttons and the progress listener
  // ---------------------------------------------------------------------------

  /** The back button goes back when it can, else unstacks a session when it can, else does nothing. */
  function BackClick(canGoBack: bool, canUnstack: bool): seq<Effect>
  {
    if canGoBack then [GoBack] else if canUnstack then [UnstackSession] else []
  }

  /** `onCanGoBack`: the button is enabled exactly when a click would do something. */
  lemma BackEnabledIffClickActs(canGoBack: bool, canUnstack: bool)
    ensures (canUnstack || canGoBack) <==> BackClick(canGoBack, canUnstack) != []
    ensures canGoBack ==> BackClick(canGoBack, canUnstack) == [GoBack]
  {
  }

  /** The reload button stops a page that is loading and reloads otherwise. */
  function ReloadClick(n: Nav): Effect
  {
    if n.loading then StopLoad else Reload
  }

  function AfterPageStart(n: Nav): Nav
  {
    n.(loading := true, reloadIcon := StopIcon)
  }

  function AfterPageStop(n: Nav): Nav
  {
    n.(loading := false, reloadIcon := ReloadIcon)
  }

  /** During a load the reload button stops it; after the load it reloads, and the icon says which. */
  lemma ReloadFollowsLoading(n: Nav)
    ensures ReloadClick(AfterPageStart(n)) == StopLoad && AfterPageStart(n).reloadIcon == StopIcon
    ensures ReloadClick(AfterPageStop(n)) == Reload && AfterPageStop(n).reloadIcon == ReloadIcon
    ensures NavValid(n) ==> NavValid(AfterPageStart(n)) && NavValid(AfterPageStop(n))
  {
  }

  // ---------------------------------------------------------------------------
  // The mutable objects
  // ---------------------------------------------------------------------------

  /** The widget manager's registries that the bar pushes to and pops from. */
  class WidgetManager {
    var backHandlers: seq<Handler>
    var brightness: seq<BrightnessEntry>
    var trayVisible: bool

    constructor ()
      ensures backHandlers == [] && brightness == [] && trayVisible
    {
      backHandlers := [];
      brightness := [];
      trayVisible := true;
    }

    method PushBackHandler(h: Handler)
      modifies this
      ensures backHandlers == old(backHandlers) + [h]
      ensures brightness == old(brightness) && trayVisible == old(trayVisible)
    {
      backHandlers := backHandlers + [h];
    }

    method PopBackHandler(h: Handler)
      modifies this
      ensures backHandlers == RemoveLast(old(backHandlers), h)
      ensures brightness == old(brightness) && trayVisible == old(trayVisible)
    {
      backHandlers := RemoveLast(backHandlers, h);
    }

    method PushWorldBrightness(o: BrightnessOwner, level: real)
      modifies this
      ensures brightness == old(brightness) + [BrightnessEntry(o, level)]
      ensures backHandlers == old(backHandlers) && trayVisible == old(trayVisible)
    {
      brightness := brightness + [BrightnessEntry(o, level)];
    }

    method PopWorldBrightness(o: BrightnessOwner)
      modifies this
      ensures brightness == PopOwner(old(brightness), o)
      ensures backHandlers == old(backHandlers) && trayVisible == old(trayVisible)
    {
      brightness := PopOwner(brightness, o);
    }

    method SetTrayVisible(v: bool)
      modifies this
      ensures trayVisible == v
      ensures backHandlers == old(backHandlers) && brightness == old(brightness)
    {
      trayVisible := v;
    }
  }

  class NavigationBarWidget {
    const manager: WidgetManager
    const dims: Dims
    var isLoading: bool
    var isInFullScreenMode: bool
    var isResizing: bool
    var isInVRVideo: bool
    var visible: bool
    var worldWidth: real
    var width: int
    var backEnabled: bool
    var reloadIcon: ReloadIcon

    function Snapshot(): Nav
      reads this, manager
    {
      Nav(isLoading, isInFullScreenMode, isResizing, isInVRVideo, visible, worldWidth, width,
          backEnabled, reloadIcon, manager.backHandlers, manager.brightness, manager.trayVisible)
    }

    predicate Valid()
      reads this, manager
    {
      dims.defaultWorldWidth > 0.0 && NavValid(Snapshot())
    }

    constructor (aManager: WidgetManager, aDims: Dims, aWorldWidth: real, aWidth: int)
      requires aDims.defaultWorldWidth > 0.0
      requires Count(aManager.backHandlers, FullScreenBack) == 0 && Count(aManager.backHandlers, ResizeBack) == 0
      requires Count(aManager.backHandlers, VRVideoBack) == 0
      requires CountOwner(aManager.brightness, NavigationBarOwner) == 0 && CountOwner(aManager.brightness, BrightnessMenuOwner) == 0
      ensures manager == aManager && dims == aDims && Valid()
      ensures !isLoading && !isInFullScreenMode && !isResizing && !isInVRVideo && visible
    {
      manager := aManager;
      dims := aDims;
      isLoading := false;
      isInFullScreenMode := false;
      isResizing := false;
      isInVRVideo := false;
      visible := true;
      worldWidth := aWorldWidth;
      width := aWidth;
      backEnabled := true;
      reloadIcon := ReloadIcon;
    }

    method EnterFullScreenMode(selectedBrightness: real) returns (effects: seq<Effect>)
      requires Valid()
      modifies this, manager
      ensures Valid()
      ensures Step(Snapshot(), effects) == EnterFullScreen(old(Snapshot()), dims, selectedBrightness)
    {
      ghost var n := Snapshot();
      EnterFullScreenValid(n, dims, selectedBrightness);
      effects := [];
      if isInFullScreenMode {
        return;
      }
      manager.PushBackHandler(FullScreenBack);
      isInFullScreenMode := true;
      manager.PushWorldBrightness(NavigationBarOwner, dims.dimBrightness);
      manager.SetTrayVisible(false);
      manager.PushWorldBrightness(BrightnessMenuOwner, selectedBrightness);
      assert manager.brightness == n.brightness + [BrightnessEntry(NavigationBarOwner, dims.dimBrightness)]
                                               + [BrightnessEntry(BrightnessMenuOwner, selectedBrightness)];
      assert Snapshot() == EnterFullScreen(n, dims, selectedBrightness).nav;
    }

    method ExitFullScreenMode(sessionInFullScreen: bool) returns (effects: seq<Effect>)
      requires Valid()
      modifies this, manager
      ensures Valid()
      ensures Step(Snapshot(), effects) == ExitFullScreen(old(Snapshot()), sessionInFullScreen)
    {
      ghost var n := Snapshot();
      ExitFullScreenValid(n, sessionInFullScreen);
      effects := [];
      if !isInFullScreenMode {
        return;
      }
      isInFullScreenMode := false;
      manager.PopBackHandler(FullScreenBack);
      manager.PopWorldBrightness(NavigationBarOwner);
      if sessionInFullScreen {
        effects := [ExitSessionFullScreen];
      }
      manager.SetTrayVisible(true);
      manager.PopWorldBrightness(BrightnessMenuOwner);
      assert manager.brightness == PopOwner(PopOwner(n.brightness, NavigationBarOwner), BrightnessMenuOwner);
      assert Snapshot() == ExitFullScreen(n, sessionInFullScreen).nav;
    }

    method EnterResizeMode() returns (effects: seq<Effect>)
      requires Valid()
      modifies this, manager
      ensures Valid()
      ensures Step(Snapshot(), effects) == EnterResize(old(Snapshot()))
    {
      EnterResizeValid(Snapshot());
      effects := [];
      if isResizing {
        return;
      }
      isResizing := true;
      effects := [StartWidgetResize];
      manager.PushBackHandler(ResizeBack);
    }

    /** `exitResizeMode`; its commit flag is never read. */
    method ExitResizeMode(commitChanges: bool, browserWorldWidth: real) returns (effects: seq<Effect>)
      requires Valid()
      modifies this, manager
      ensures Valid()
      ensures Step(Snapshot(), effects) == ExitResize(old(Snapshot()), dims, browserWorldWidth)
    {
      ExitResizeValid(Snapshot(), dims, browserWorldWidth);
      effects := [];
      if !isResizing {
        return;
      }
      isResizing := false;
      effects := [FinishWidgetResize];
      manager.PopBackHandler(ResizeBack);
      OnWidgetUpdate(true, browserWorldWidth);
    }

    method EnterVRVideoMode(projection: int, video: Option<Video>) returns (effects: seq<Effect>)
      requires Valid()
      modifies this, manager
      ensures Valid()
      ensures Step(Snapshot(), effects) == EnterVRVideo(old(Snapshot()), projection, video)
    {
      ghost var n := Snapshot();
      EnterVRVideoValid(n, projection, video);
      effects := [];
      if isInVRVideo {
        return;
      }
      isInVRVideo := true;
      manager.PushBackHandler(VRVideoBack);
      visible := false;
      var sizing: seq<Effect> := [];
      if video.Some? && video.value.width > 0 && video.value.height > 0 {
        sizing := [EnableVRVideoMode(video.value.width, video.value.height)];
      }
      effects := [HideBrowser] + sizing + [AttachMediaControls(if video.Some? then Some(video.value.id) else None), ShowVRVideo(projection)];
      assert Snapshot() == n.(vrVideo := true, handlers := n.handlers + [VRVideoBack], visible := false);
    }

    method ExitVRVideoMode() returns (effects: seq<Effect>)
      requires Valid()
      modifies this, manager
      ensures Valid()
      ensures Step(Snapshot(), effects) == ExitVRVideo(old(Snapshot()))
    {
      ghost var n := Snapshot();
      ExitVRVideoValid(n);
      effects := [];
      if !isInVRVideo {
        return;
      }
      isInVRVideo := false;
      manager.PopBackHandler(VRVideoBack);
      effects := [HideVRVideo];
      visible := true;
      effects := effects + [DisableVRVideoMode, ShowBrowser];
      assert Snapshot() == n.(vrVideo := false, handlers := RemoveLast(n.handlers, VRVideoBack), visible := true);
    }

    method OnFullScreen(full: bool, selectedBrightness: real, sessionInFullScreen: bool, browserWorldWidth: real)
      returns (effects: seq<Effect>)
      requires Valid()
      modifies this, manager
      ensures Valid()
      ensures Step(Snapshot(), effects) == AfterFullScreen(old(Snapshot()), dims, full, selectedBrightness, sessionInFullScreen, browserWorldWidth)
    {
      if full {
        effects := [];
        if !isInFullScreenMode {
          effects := EnterFullScreenMode(selectedBrightness);
        }
        if isResizing {
          var more := ExitResizeMode(false, browserWorldWidth);
          effects := effects + more;
        }
      } else {
        effects := ExitFullScreenMode(sessionInFullScreen);
      }
    }

    method OnWidgetUpdate(fromBrowser: bool, browserWorldWidth: real)
      requires dims.defaultWorldWidth > 0.0
      modifies this
      ensures Snapshot() == WidgetUpdate(old(Snapshot()), dims, fromBrowser, browserWorldWidth)
    {
      if !fromBrowser || isResizing {
        return;
      }
      var target := browserWorldWidth;
      var defaultWidth := dims.defaultWorldWidth;
      target := if defaultWidth >= target then defaultWidth else target;
      target := if target <= defaultWidth * 1.5 then target else defaultWidth * 1.5;
      var ratio := target / defaultWidth;
      worldWidth := target;
      width := DoubleToInt(dims.barWidthDp as real * ratio);
    }

    method OnReloadClick() returns (effect: Effect)
      ensures effect == ReloadClick(Snapshot())
    {
      effect := if isLoading then StopLoad else Reload;
    }

    method OnCanGoBack(canGoBack: bool, canUnstack: bool)
      requires Valid()
      modifies this
      ensures Valid() && Snapshot() == old(Snapshot()).(backEnabled := canUnstack || canGoBack)
    {
      backEnabled := canUnstack || canGoBack;
    }

    method OnPageStart()
      requires Valid()
      modifies this
      ensures Valid() && Snapshot() == AfterPageStart(old(Snapshot()))
    {
      isLoading := true;
      reloadIcon := StopIcon;
    }

    method OnPageStop()
      requires Valid()
      modifies this
      ensures Valid() && Snapshot() == AfterPageStop(old(Snapshot()))
    {
      isLoading := false;
      reloadIcon := ReloadIcon;
    }
  }
}
