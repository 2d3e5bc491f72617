/**
 * The media seek bar (`MediaSeekBar`): two time labels around an Android
 * `SeekBar` whose range is 0..100. It shows the play position and the
 * buffered position as fractions of the duration, switches to a "LIVE"
 * label for non-seekable media, and turns a user drag into a seek target.
 */
module MediaSeekBar {
  import opened Wrappers
  import opened JavaLang

  /** `SeekBar.getMax()`: the Android default range, which the layout does not change. */
  const Max: int := 100

  /** `formatTime`: whole seconds (floored) as `minutes:seconds`, seconds padded to two digits. */
  function FormatTime(seconds: real): string
  {
    var total := FloorToInt(seconds);
    IntToString(Quot(total, 60)) + ":" + ZeroPadded(Rem(total, 60), 2)
  }

  /**
   * For a non-negative time the label is `M:SS`: a minutes part, a colon and
   * two digits, with `M * 60 + SS` equal to the floored time and `SS < 60`.
   */
  lemma FormatTimeSpec(seconds: real)
    requires 0.0 <= seconds < IntMax as real
    ensures var s := FormatTime(seconds);
      |s| >= 4 && s[|s| - 3] == ':' &&
      AllDigits(s[..|s| - 3]) && AllDigits(s[|s| - 2..]) &&
      DigitsValue(s[|s| - 2..]) < 60 &&
      DigitsValue(s[..|s| - 3]) * 60 + DigitsValue(s[|s| - 2..]) == seconds.Floor
    ensures var s := FormatTime(seconds);
      s[..|s| - 3] == NatToString(seconds.Floor / 60) &&
      s[|s| - 2..] == ZeroPadded(seconds.Floor % 60, 2)
  {
    var total := FloorToInt(seconds);
    assert total == seconds.Floor;
    var m := Quot(total, 60);
    var r := Rem(total, 60);
    assert Pow10(2) == 100;
    NatToStringSpec(m);
    ZeroPaddedValue(r, 2);
    var s := FormatTime(seconds);
    var ms := NatToString(m);
    var rs := ZeroPadded(r, 2);
    assert IntToString(m) == ms;
    assert s == ms + ":" + rs;
    assert s[..|s| - 3] == ms;
    assert s[|s| - 2..] == rs;
    assert m == total / 60 && r == total % 60;
  }

  /** A negative time keeps its sign in the seconds field: -1 s is shown as "0:-1". */
  lemma FormatTimeNegative()
    ensures FormatTime(-1.0) == "0:-1"
  {
    assert FloorToInt(-1.0) == -1;
    assert Quot(-1, 60) == 0;
    assert Rem(-1, 60) == -1;
    assert NatToString(0) == "0";
    assert NatToString(1) == "1";
    assert ZeroPadded(-1, 2) == "-1";
  }

  /** `SeekBar.setProgress` / `setSecondaryProgress` clamp their argument to `0..Max`. */
  function Clamp(p: int): (r: int)
    ensures 0 <= r <= Max
    ensures 0 <= p <= Max ==> r == p
    ensures p < 0 ==> r == 0
    ensures p > Max ==> r == Max
  {
    if p < 0 then 0 else if p > Max then Max else p
  }

  /** The bar position for time `t` of duration `d`: `(int)(t / d * max)`, clamped. */
  function Scaled(t: real, d: real): (r: int)
    requires d > 0.0
    ensures 0 <= r <= Max
  {
    Clamp(DoubleToInt(t / d * Max as real))
  }

  /** Within the duration, the bar position is the floored percentage. */
  lemma ScaledIsPercentage(t: real, d: real)
    requires d > 0.0 && 0.0 <= t <= d
    ensures Scaled(t, d) as real <= t / d * 100.0 < Scaled(t, d) as real + 1.0
  {
    var x := t / d * Max as real;
    assert 0.0 <= t / d <= 1.0 by {
      assert t / d * d == t;
    }
    assert 0.0 <= x <= 100.0;
    var i := DoubleToInt(x);
    assert i as real <= x < i as real + 1.0;
    assert 0 <= i <= Max;
  }

  /** All the state that the seek bar and its child views hold. */
  datatype View = View(
    duration: real,
    currentTime: real,
    buffered: real,
    touching: bool,
    seekable: bool,
    hasDelegate: bool,
    leftText: string,
    rightText: string,
    rightVisible: bool,
    thumbAlpha: int,
    progress: int,
    secondaryProgress: int,
    enabled: bool)

  /**
   * The consistency the seek bar keeps between its fields and its views:
   * the labels show the cached times (or "LIVE"), the right label and the
   * thumb are shown exactly when the media is seekable, a live bar is full
   * and disabled, and a seekable bar with a known duration shows the
   * buffered fraction.
   */
  predicate ViewValid(v: View)
  {
    && 0 <= v.progress <= Max && 0 <= v.secondaryProgress <= Max
    && v.rightText == FormatTime(v.duration)
    && v.rightVisible == v.seekable
    && v.thumbAlpha == (if v.seekable then 255 else 0)
    && (v.enabled ==> v.seekable)
    && (v.seekable ==> v.leftText == FormatTime(v.currentTime))
    && (!v.seekable ==> v.leftText == "LIVE" && v.progress == Max)
    && (v.seekable && v.duration > 0.0 ==> v.secondaryProgress == Scaled(v.buffered, v.duration))
  }

  /** The state `initialize` leaves: both labels "0:00", a full bar, disabled. */
  function InitialView(): (v: View)
    ensures ViewValid(v)
    ensures v.seekable && !v.enabled && v.progress == Max && v.leftText == "0:00" && v.rightText == "0:00"
  {
    assert FormatTime(0.0) == "0:00" by {
      assert FloorToInt(0.0) == 0;
      assert Quot(0, 60) == 0 && Rem(0, 60) == 0;
      assert NatToString(0) == "0";
      assert ZeroPadded(0, 2) == "00";
    }
    View(0.0, 0.0, 0.0, false, true, false, "0:00", "0:00", true, 255, Max, 0, false)
  }

  /** `updateProgress`: the play position, unless the user is dragging or the duration is unknown. */
  function UpdateProgress(v: View): (r: View)
    ensures v.touching || v.duration <= 0.0 ==> r == v
    ensures !v.touching && v.duration > 0.0 ==>
      r.progress == Scaled(v.currentTime, v.duration) && r == v.(progress := r.progress)
  {
    if v.touching || v.duration <= 0.0 then v
    else v.(progress := Scaled(v.currentTime, v.duration))
  }

  /** `updateBufferedProgress`: the buffered position, or 0 when the duration is unknown. */
  function UpdateBuffered(v: View): (r: View)
    ensures r == v.(secondaryProgress := r.secondaryProgress)
    ensures 0 <= r.secondaryProgress <= Max
    ensures v.duration <= 0.0 ==> r.secondaryProgress == 0
    ensures v.duration > 0.0 ==> r.secondaryProgress == Scaled(v.buffered, v.duration)
  {
    if v.duration <= 0.0 then v.(secondaryProgress := 0)
    else v.(secondaryProgress := Scaled(v.buffered, v.duration))
  }

  function AfterSetCurrentTime(v: View, t: real): View
  {
    var w := v.(currentTime := t);
    if v.seekable then UpdateProgress(w.(leftText := FormatTime(t))) else w
  }

  function AfterSetDuration(v: View, d: real): View
  {
    var w := v.(duration := d, rightText := FormatTime(d));
    if d > 0.0 && v.seekable then UpdateBuffered(UpdateProgress(w)).(enabled := true) else w
  }

  function AfterSetSeekable(v: View, s: bool): View
  {
    if v.seekable == s then v
    else if s then EnterSeekable(v)
    else EnterLive(v)
  }

  /** `setSeekable(true)` on a live bar. */
  function EnterSeekable(v: View): View
  {
    var y := v.(seekable := true, leftText := FormatTime(v.currentTime));
    var x := if v.duration > 0.0 then UpdateBuffered(UpdateProgress(y)) else y;
    x.(rightVisible := true, thumbAlpha := 255, enabled := v.duration > 0.0)
  }

  /** `setSeekable(false)` on a seekable bar. */
  function EnterLive(v: View): View
  {
    v.(seekable := false, leftText := "LIVE", progress := Max, rightVisible := false, thumbAlpha := 0, enabled := false)
  }

  function AfterSetBuffered(v: View, b: real): View
  {
    var w := v.(buffered := b);
    if v.seekable then UpdateBuffered(w) else w
  }

  /** The time a bar position stands for: `duration * progress / max`. */
  function SeekTime(duration: real, progress: int): real
  {
    duration * (progress as real) / (Max as real)
  }

  /** `onProgressChanged`: a user drag seeks to the same fraction of the duration. */
  function SeekTarget(v: View, progress: int, fromUser: bool): (r: Option<real>)
    ensures r.Some? <==> fromUser && v.hasDelegate
    ensures r.Some? ==> r.value == v.duration * progress as real / Max as real
  {
    if fromUser && v.hasDelegate then Some(SeekTime(v.duration, progress)) else None
  }

  /** Every operation keeps the view consistent. */
  lemma OperationsPreserveValid(v: View, t: real, s: bool, b: bool)
    requires ViewValid(v)
    ensures ViewValid(AfterSetCurrentTime(v, t))
    ensures ViewValid(AfterSetDuration(v, t))
    ensures ViewValid(AfterSetSeekable(v, s))
    ensures ViewValid(AfterSetBuffered(v, t))
    ensures ViewValid(v.(touching := b))
    ensures ViewValid(v.(hasDelegate := b))
  {
    SetCurrentTimeValid(v, t);
    SetDurationValid(v, t);
    SetSeekableValid(v, s);
    SetBufferedValid(v, t);
  }

  lemma SetCurrentTimeValid(v: View, t: real)
    requires ViewValid(v)
    ensures ViewValid(AfterSetCurrentTime(v, t))
  {
  }

  lemma SetDurationValid(v: View, d: real)
    requires ViewValid(v)
    ensures ViewValid(AfterSetDuration(v, d))
  {
  }

  lemma SetSeekableValid(v: View, s: bool)
    requires ViewValid(v)
    ensures ViewValid(AfterSetSeekable(v, s))
  {
  }

  lemma SetBufferedValid(v: View, b: real)
    requires ViewValid(v)
    ensures ViewValid(AfterSetBuffered(v, b))
  {
  }

  /** Each setter changes its own attribute and keeps the other cached attributes. */
  lemma SettersKeepOtherAttributes(v: View, x: real, s: bool)
    ensures var w := AfterSetCurrentTime(v, x);
      w.currentTime == x && w.duration == v.duration && w.seekable == v.seekable && w.buffered == v.buffered
    ensures var w := AfterSetDuration(v, x);
      w.duration == x && w.currentTime == v.currentTime && w.seekable == v.seekable && w.buffered == v.buffered
    ensures var w := AfterSetSeekable(v, s);
      w.seekable == s && w.duration == v.duration && w.currentTime == v.currentTime && w.buffered == v.buffered
    ensures var w := AfterSetBuffered(v, x);
      w.buffered == x && w.duration == v.duration && w.currentTime == v.currentTime && w.seekable == v.seekable
  {
  }

  /**
   * The UI sets progress only when the user is not dragging: after a time or
   * duration update of a seekable bar with a known duration and no drag, the
   * bar shows the play fraction.
   */
  lemma ProgressFollowsTime(v: View, t: real, d: real)
    requires v.seekable && !v.touching
    ensures v.duration > 0.0 ==> AfterSetCurrentTime(v, t).progress == Scaled(t, v.duration)
    ensures d > 0.0 ==> AfterSetDuration(v, d).progress == Scaled(v.currentTime, d)
    ensures d > 0.0 ==> AfterSetDuration(v, d).enabled
  {
  }

  /** While the user drags, no update moves the bar's play position. */
  lemma DragFreezesProgress(v: View, t: real)
    requires v.touching
    ensures AfterSetCurrentTime(v, t).progress == v.progress
    ensures AfterSetDuration(v, t).progress == v.progress
  {
  }

  /** A live bar ignores time updates: its label stays "LIVE" and the bar stays full. */
  lemma LiveIgnoresTime(v: View, t: real, b: real)
    requires ViewValid(v) && !v.seekable
    ensures AfterSetCurrentTime(v, t).leftText == "LIVE" && AfterSetCurrentTime(v, t).progress == Max
    ensures AfterSetBuffered(v, b).secondaryProgress == v.secondaryProgress
    ensures !AfterSetDuration(v, t).enabled
  {
  }

  /** `setSeekable` is idempotent: setting the value the bar already has changes nothing. */
  lemma SetSeekableIdempotent(v: View, s: bool)
    ensures AfterSetSeekable(v, v.seekable) == v
    ensures AfterSetSeekable(AfterSetSeekable(v, s), s) == AfterSetSeekable(v, s)
  {
  }

  /**
   * A real change of seekability: the bar is enabled exactly when it becomes
   * seekable with a known duration, the right label and the thumb follow the
   * new value, a live bar is full and labelled "LIVE", and a seekable one
   * labels the current time.
   */
  lemma SetSeekableChanges(v: View, s: bool)
    requires v.seekable != s
    ensures var w := AfterSetSeekable(v, s);
      && w.seekable == s
      && w.enabled == (s && v.duration > 0.0)
      && w.rightVisible == s
      && w.thumbAlpha == (if s then 255 else 0)
      && (!s ==> w.leftText == "LIVE" && w.progress == Max)
      && (s ==> w.leftText == FormatTime(v.currentTime))
      && (s && v.duration > 0.0 && !v.touching ==> w.progress == Scaled(v.currentTime, v.duration))
      && (s && v.duration > 0.0 ==> w.secondaryProgress == Scaled(v.buffered, v.duration))
  {
  }

  /**
   * `setDuration` never disables the bar: it is enabled afterwards exactly
   * when it was before, or when the bar is seekable and the new duration is
   * positive, in which case it also shows the buffered fraction.
   */
  lemma SetDurationEnables(v: View, d: real)
    ensures AfterSetDuration(v, d).enabled == (v.enabled || (d > 0.0 && v.seekable))
    ensures d > 0.0 && v.seekable ==> AfterSetDuration(v, d).secondaryProgress == Scaled(v.buffered, d)
  {
  }

  /** The buffered position does not depend on whether the user is dragging. */
  lemma UpdateBufferedIgnoresTouching(v: View, b: bool)
    ensures UpdateBuffered(v.(touching := b)) == UpdateBuffered(v).(touching := b)
    ensures UpdateBuffered(v.(touching := b)).secondaryProgress == UpdateBuffered(v).secondaryProgress
  {
  }

  /** Dragging to a position and seeking there puts the bar back at that position. */
  lemma {:induction false} SeekRoundTrip(v: View, p: int)
    requires v.hasDelegate && v.duration > 0.0 && 0 <= p <= Max
    ensures SeekTarget(v, p, true).Some?
    ensures Scaled(SeekTarget(v, p, true).value, v.duration) == p
  {
    var d := v.duration;
    var q := (p as real) / 100.0;
    var t := SeekTime(d, p);
    assert t == d * q;
    assert t / d == q by {
      assert (t / d) * d == t;
      assert q * d == t;
    }
    assert t / d * (Max as real) == p as real;
    assert DoubleToInt(p as real) == p;
  }

  /**
   * Live media that becomes seekable: with a duration of 100 s and a current
   * time of 50 s the bar shows 50, the labels show the times, and it is enabled.
   */
  lemma LiveThenSeekable()
    ensures var v0 := AfterSetSeekable(InitialView(), false);
      var v1 := AfterSetCurrentTime(AfterSetDuration(v0, 100.0), 50.0);
      var v2 := AfterSetSeekable(v1, true);
      v1.progress == Max && v1.leftText == "LIVE" &&
      v2.progress == 50 && v2.enabled && v2.rightVisible && v2.leftText == FormatTime(50.0)
  {
    var v0 := AfterSetSeekable(InitialView(), false);
    var v1 := AfterSetCurrentTime(AfterSetDuration(v0, 100.0), 50.0);
    assert v1.duration == 100.0 && v1.currentTime == 50.0;
    assert Scaled(50.0, 100.0) == 50 by {
      assert 50.0 / 100.0 * 100.0 == 50.0;
      assert DoubleToInt(50.0) == 50;
    }
  }

  // ---------------------------------------------------------------------------
  // The mutable widget
  // ---------------------------------------------------------------------------

  class SeekBar {
    var duration: real
    var currentTime: real
    var buffered: real
    var touching: bool
    var seekable: bool
    var hasDelegate: bool
    var leftText: string
    var rightText: string
    var rightVisible: bool
    var thumbAlpha: int
    var progress: int
    var secondaryProgress: int
    var enabled: bool

    function ToView(): View
      reads this
    {
      View(duration, currentTime, buffered, touching, seekable, hasDelegate, leftText, rightText,
           rightVisible, thumbAlpha, progress, secondaryProgress, enabled)
    }

    predicate Valid()
      reads this
    {
      ViewValid(ToView())
    }

    constructor ()
      ensures ToView() == InitialView() && Valid()
    {
      duration := 0.0;
      currentTime := 0.0;
      buffered := 0.0;
      touching := false;
      seekable := true;
      hasDelegate := false;
      leftText := "0:00";
      rightText := "0:00";
      rightVisible := true;
      thumbAlpha := 255;
      progress := Max;
      secondaryProgress := 0;
      enabled := false;
    }

    method SetDelegate(aHasDelegate: bool)
      requires Valid()
      modifies this
      ensures ToView() == old(ToView()).(hasDelegate := aHasDelegate) && Valid()
    {
      hasDelegate := aHasDelegate;
    }

    method UpdateProgressInPlace()
      modifies this
      ensures ToView() == UpdateProgress(old(ToView()))
    {
      if touching || duration <= 0.0 {
        return;
      }
      progress := Clamp(DoubleToInt(currentTime / duration * Max as real));
    }

    method UpdateBufferedInPlace()
      modifies this
      ensures ToView() == UpdateBuffered(old(ToView()))
    {
      if duration <= 0.0 {
        secondaryProgress := 0;
        return;
      }
      secondaryProgress := Clamp(DoubleToInt(buffered / duration * Max as real));
    }

    method SetCurrentTime(aTime: real)
      requires Valid()
      modifies this
      ensures ToView() == AfterSetCurrentTime(old(ToView()), aTime) && Valid()
    {
      currentTime := aTime;
      if seekable {
        leftText := FormatTime(aTime);
        UpdateProgressInPlace();
      }
      SetCurrentTimeValid(old(ToView()), aTime);
    }

    method SetDuration(aDuration: real)
      requires Valid()
      modifies this
      ensures ToView() == AfterSetDuration(old(ToView()), aDuration) && Valid()
    {
      ghost var v0 := ToView();
      SetDurationValid(v0, aDuration);
      duration := aDuration;
      rightText := FormatTime(aDuration);
      ghost var w := ToView();
      assert w == v0.(duration := aDuration, rightText := FormatTime(aDuration));
      if duration > 0.0 && seekable {
        UpdateProgressInPlace();
        ghost var v1 := ToView();
        assert v1 == UpdateProgress(w);
        UpdateBufferedInPlace();
        ghost var v2 := ToView();
        assert v2 == UpdateBuffered(v1);
        enabled := true;
        assert ToView() == v2.(enabled := true);
      }
    }

    method SetSeekable(aSeekable: bool)
      requires Valid()
      modifies this
      ensures ToView() == AfterSetSeekable(old(ToView()), aSeekable) && Valid()
    {
      SetSeekableValid(ToView(), aSeekable);
      if seekable == aSeekable {
        return;
      }
      if aSeekable {
        BecomeSeekable();
      } else {
        BecomeLive();
      }
    }

    method BecomeSeekable()
      modifies this
      ensures ToView() == EnterSeekable(old(ToView()))
    {
      seekable := true;
      leftText := FormatTime(currentTime);
      if duration > 0.0 {
        UpdateProgressInPlace();
        ghost var v1 := ToView();
        UpdateBufferedInPlace();
        assert ToView() == UpdateBuffered(v1);
      }
      rightVisible := true;
      thumbAlpha := 255;
      enabled := duration > 0.0;
    }

    method BecomeLive()
      modifies this
      ensures ToView() == EnterLive(old(ToView()))
    {
      seekable := false;
      leftText := "LIVE";
      progress := Max;
      rightVisible := false;
      thumbAlpha := 0;
      enabled := false;
    }

    method SetBuffered(aBuffered: real)
      requires Valid()
      modifies this
      ensures ToView() == AfterSetBuffered(old(ToView()), aBuffered) && Valid()
    {
      buffered := aBuffered;
      if seekable {
        UpdateBufferedInPlace();
      }
      SetBufferedValid(old(ToView()), aBuffered);
    }

    method OnProgressChanged(aProgress: int, fromUser: bool) returns (seek: Option<real>)
      ensures seek == SeekTarget(ToView(), aProgress, fromUser)
    {
      seek := None;
      if fromUser && hasDelegate {
        seek := Some(SeekTime(duration, aProgress));
      }
    }

    method OnStartTrackingTouch()
      requires Valid()
      modifies this
      ensures ToView() == old(ToView()).(touching := true) && Valid()
    {
      touching := true;
    }

    method OnStopTrackingTouch()
      requires Valid()
      modifies this
      ensures ToView() == old(ToView()).(touching := false) && Valid()
    {
      touching := false;
    }
  }
}
