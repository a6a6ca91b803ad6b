/**
 * The wordmark docking calculator (components/AnimatedLogo.tsx): scroll
 * progress, the docked scale, and the transform, colour and shadow derived
 * from them. Browser numbers are modelled as exact reals.
 */
module AnimatedLogo {
  import App

  /** Viewports narrower than this many pixels are treated as mobile. */
  const MobileBreakpoint: real := 768.0

  function Min(a: real, b: real): real { if a <= b then a else b }
  function Max(a: real, b: real): real { if a >= b then a else b }

  // ---------------------------------------------------------------------------
  // Scroll progress
  // ---------------------------------------------------------------------------

  /** `checkMobile`: the viewport counts as mobile below the breakpoint. */
  predicate IsMobile(innerWidth: real) {
    innerWidth < MobileBreakpoint
  }

  /** The scroll distance over which the logo docks: 60% of the viewport height on mobile, 40% otherwise. */
  function Threshold(innerHeight: real, mobile: bool): (t: real)
    ensures innerHeight > 0.0 ==> 0.0 < t < innerHeight
    ensures innerHeight > 0.0 ==> (mobile <==> t > innerHeight / 2.0)
  {
    if mobile then innerHeight * 0.6 else innerHeight * 0.4
  }

  /**
   * The progress formula of `handleScroll`, capped at 1 but with no lower
   * clamp: never above 1, exactly 1 once the threshold is reached, and
   * non-negative exactly when the scroll offset is.
   */
  function Progress(scrollY: real, threshold: real): (p: real)
    requires threshold > 0.0
    ensures p <= 1.0
    ensures p == 1.0 <==> scrollY >= threshold
    ensures p >= 0.0 <==> scrollY >= 0.0
  {
    DivisionOrder(scrollY, threshold);
    Min(scrollY / threshold, 1.0)
  }

  /** Dividing by a positive number keeps comparisons with 0 and with the divisor. */
  lemma DivisionOrder(y: real, t: real)
    requires t > 0.0
    ensures y / t >= 1.0 <==> y >= t
    ensures y / t >= 0.0 <==> y >= 0.0
  {
    assert (y / t) * t == y;
    if y / t >= 1.0 {
      assert (y / t) * t >= 1.0 * t;
    }
    if y / t < 1.0 {
      assert (y / t) * t < 1.0 * t;
    }
    if y / t < 0.0 {
      assert (y / t) * t < 0.0;
    }
  }

  /** Scroll progress for a viewport height and mobile flag. */
  function ScrollProgress(scrollY: real, innerHeight: real, mobile: bool): (p: real)
    requires innerHeight > 0.0
    ensures p <= 1.0
    ensures p == 1.0 <==> scrollY >= Threshold(innerHeight, mobile)
    ensures p >= 0.0 <==> scrollY >= 0.0
  {
    Progress(scrollY, Threshold(innerHeight, mobile))
  }

  /** Scrolling further never lowers the progress. */
  lemma ProgressMonotone(y1: real, y2: real, threshold: real)
    requires threshold > 0.0 && y1 <= y2
    ensures Progress(y1, threshold) <= Progress(y2, threshold)
  {
    assert y2 / threshold - y1 / threshold == (y2 - y1) / threshold;
    DivisionOrder(y2 - y1, threshold);
  }

  /** Worked values for an 800-pixel-high desktop viewport. */
  lemma ProgressAt800()
    ensures Threshold(800.0, false) == 320.0
    ensures ScrollProgress(0.0, 800.0, false) == 0.0
    ensures ScrollProgress(160.0, 800.0, false) == 0.5
    ensures ScrollProgress(500.0, 800.0, false) == 1.0
  {
  }

  /** On a mobile viewport the logo docks later: for the same offset its progress is never ahead of the desktop one. */
  lemma MobileDocksLater(scrollY: real, innerHeight: real)
    requires innerHeight > 0.0 && scrollY >= 0.0
    ensures Threshold(innerHeight, true) > Threshold(innerHeight, false)
    ensures ScrollProgress(scrollY, innerHeight, true) <= ScrollProgress(scrollY, innerHeight, false)
  {
    var tm, td := Threshold(innerHeight, true), Threshold(innerHeight, false);
    var q := scrollY / tm;
    assert tm == 1.5 * td;
    assert q * tm == scrollY;
    assert scrollY / td == 1.5 * q by {
      assert (1.5 * q) * td == q * tm;
    }
    DivisionOrder(scrollY, tm);
  }

  // ---------------------------------------------------------------------------
  // Docked scale
  // ---------------------------------------------------------------------------

  /**
   * `calculateScale`: the target size (28 px below the breakpoint, 40 px
   * otherwise) over the logo's natural size of 16% of the viewport width,
   * clamped to [0.08, 1]. At width 0 the division yields +Infinity in
   * JavaScript, which the clamp turns into 1.
   */
  function DockedScale(innerWidth: real): (s: real)
    requires innerWidth >= 0.0
    ensures 0.08 <= s <= 1.0
  {
    var baseSize := innerWidth * 0.16;
    var targetSize := if innerWidth < MobileBreakpoint then 28.0 else 40.0;
    if baseSize == 0.0 then 1.0 else Min(Max(targetSize / baseSize, 0.08), 1.0)
  }

  /** At width 1024 no clamp applies: the scale is 40 / 163.84. */
  lemma DockedScaleAt1024()
    ensures DockedScale(1024.0) == 40.0 / 163.84
    ensures 0.08 < DockedScale(1024.0) < 1.0
  {
  }

  /** Very narrow viewports keep the natural size; very wide ones hit the 0.08 floor. */
  lemma DockedScaleSaturates(innerWidth: real)
    requires innerWidth > 0.0
    ensures innerWidth <= 175.0 ==> DockedScale(innerWidth) == 1.0
    ensures innerWidth >= 3125.0 ==> DockedScale(innerWidth) == 0.08
  {
    var b := innerWidth * 0.16;
    if innerWidth <= 175.0 {
      DivisionOrder(28.0, b);
    }
    if innerWidth >= 3125.0 {
      DivisionOrder(500.0, b);
      assert 40.0 / b <= 0.08 by {
        assert 40.0 / b * b == 40.0;
      }
    }
  }

  /** On either side of the breakpoint, a wider viewport never gets a larger docked scale. */
  lemma DockedScaleNonIncreasing(w1: real, w2: real)
    requires 0.0 < w1 <= w2
    requires w2 < MobileBreakpoint || w1 >= MobileBreakpoint
    ensures DockedScale(w2) <= DockedScale(w1)
  {
    var t := if w1 < MobileBreakpoint then 28.0 else 40.0;
    var b1, b2 := w1 * 0.16, w2 * 0.16;
    assert b1 <= b2;
    assert t / b2 <= t / b1 by {
      assert t / b1 - t / b2 == (t * (b2 - b1)) / (b1 * b2);
      assert t * (b2 - b1) >= 0.0 && b1 * b2 > 0.0;
      DivisionOrder(t * (b2 - b1), b1 * b2);
    }
  }

  /** Crossing the breakpoint makes the docked logo jump up in size. */
  lemma DockedScaleJumpsAtBreakpoint()
    ensures DockedScale(767.0) < DockedScale(768.0)
  {
  }

  // ---------------------------------------------------------------------------
  // Derived presentation
  // ---------------------------------------------------------------------------

  /** `isDocked`: the logo sits in the header once fully scrolled, or on any page but home. */
  predicate IsDocked(progress: real, view: App.View)
    ensures view != App.Home ==> IsDocked(progress, view)
    ensures view == App.Home && progress < 1.0 ==> !IsDocked(progress, view)
  {
    progress == 1.0 || view != App.Home
  }

  /** On home, the logo is docked exactly when the scroll offset has reached the threshold. */
  lemma DockedOnHomeIffPastThreshold(scrollY: real, innerHeight: real, mobile: bool)
    requires innerHeight > 0.0
    ensures IsDocked(ScrollProgress(scrollY, innerHeight, mobile), App.Home) <==>
            scrollY >= Threshold(innerHeight, mobile)
  {
  }

  datatype Color = Black | White

  /**
   * `getLogoColor`: white exactly on home while near the top (progress below
   * 0.2) or over a dark section; black otherwise.
   */
  function LogoColor(view: App.View, progress: real, theme: App.Theme): (c: Color)
    ensures c == White <==> view == App.Home && (progress < 0.2 || theme == App.Dark)
  {
    if view != App.Home then Black
    else if progress < 0.2 then White
    else if theme == App.Dark then White
    else Black
  }

  /** The `textShadow` condition: a soft shadow on home during the first half of docking. */
  predicate HasTextShadow(view: App.View, progress: real)
    ensures HasTextShadow(view, progress) ==> view == App.Home && !IsDocked(progress, view)
  {
    view == App.Home && progress < 0.5
  }

  /** Near the top, the logo that casts the shadow is white. */
  lemma ShadowOnWhiteNearTop(view: App.View, progress: real, theme: App.Theme)
    requires HasTextShadow(view, progress) && progress < 0.2
    ensures LogoColor(view, progress, theme) == White
  {
  }

  /** The docked logo's offset below the top of the viewport, in rem: 2.4 on mobile, 2.2 otherwise. */
  function HeaderOffset(mobile: bool): (r: real)
    ensures r == 2.2 || r == 2.4
    ensures mobile <==> r > 2.2
  {
    if mobile then 2.4 else 2.2
  }

  /** `translateY(<vh> vh + <rem> rem) scale(<scale>)` as numbers. */
  datatype Transform = Transform(translateVh: real, translateRem: real, scale: real)

  /**
   * The docked transform: half a viewport up, back down by the header offset,
   * at the docked scale. It is exactly where the undocked motion ends, so
   * docking has no jump.
   */
  function DockedTransform(dockedScale: real, mobile: bool): (t: Transform)
    ensures t == UndockedTransform(1.0, dockedScale, mobile)
  {
    Transform(-50.0, HeaderOffset(mobile), dockedScale)
  }

  /**
   * The undocked transform: each component moves in proportion to the
   * progress, starting from the identity. While docking, the logo rises by at
   * most half a viewport and its scale stays between the docked scale and the
   * natural size.
   */
  function UndockedTransform(progress: real, dockedScale: real, mobile: bool): (t: Transform)
    ensures progress == 0.0 ==> t == Transform(0.0, 0.0, 1.0)
    ensures 0.0 <= progress <= 1.0 ==> -50.0 <= t.translateVh <= 0.0
    ensures 0.0 <= progress <= 1.0 && dockedScale <= 1.0 ==> dockedScale <= t.scale <= 1.0
  {
    assert 0.0 <= progress <= 1.0 && dockedScale <= 1.0 ==>
             0.0 <= progress * (1.0 - dockedScale) <= 1.0 - dockedScale by {
      if 0.0 <= progress <= 1.0 && dockedScale <= 1.0 {
        ProductNonNegative(progress, 1.0 - dockedScale);
        ProductNonNegative(1.0 - progress, 1.0 - dockedScale);
      }
    }
    Transform(-(progress * 50.0), progress * HeaderOffset(mobile), 1.0 - progress * (1.0 - dockedScale))
  }

  /**
   * The numeric part of `getLogoTransform`: the docked transform away from
   * home; on home it always agrees with the undocked formula, which reaches
   * the docked transform at full progress.
   */
  function LogoTransform(view: App.View, progress: real, dockedScale: real, mobile: bool): (t: Transform)
    ensures view != App.Home ==> t == DockedTransform(dockedScale, mobile)
    ensures view == App.Home ==> t == UndockedTransform(progress, dockedScale, mobile)
  {
    if IsDocked(progress, view) then DockedTransform(dockedScale, mobile)
    else UndockedTransform(progress, dockedScale, mobile)
  }

  /** The further the scroll, the smaller the undocked logo. */
  lemma UndockedScaleNonIncreasing(p1: real, p2: real, dockedScale: real, mobile: bool)
    requires p1 <= p2 && dockedScale <= 1.0
    ensures UndockedTransform(p2, dockedScale, mobile).scale <= UndockedTransform(p1, dockedScale, mobile).scale
  {
    ProductNonNegative(p2 - p1, 1.0 - dockedScale);
    assert p2 * (1.0 - dockedScale) - p1 * (1.0 - dockedScale) == (p2 - p1) * (1.0 - dockedScale);
  }

  lemma ProductNonNegative(a: real, b: real)
    requires a >= 0.0 && b >= 0.0
    ensures a * b >= 0.0
  {
  }

  /** The logo's style as rendered. */
  datatype LogoStyle = LogoStyle(transform: Transform, color: Color, textShadow: bool)

  // ---------------------------------------------------------------------------
  // The state cells of the AnimatedLogo component
  // ---------------------------------------------------------------------------

  /** `scrollProgress`, `isMobile` and `dockedScale`, overwritten by the event handlers. */
  class LogoState {
    var scrollProgress: real
    var isMobile: bool
    var dockedScale: real

    /** Progress never exceeds 1 and the docked scale stays within its clamp. */
    ghost predicate Valid()
      reads this
    {
      scrollProgress <= 1.0 && 0.08 <= dockedScale <= 1.0
    }

    /** The initial `useState` values. */
    constructor ()
      ensures Valid()
      ensures scrollProgress == 0.0 && !isMobile && dockedScale == 0.12
    {
      scrollProgress := 0.0;
      isMobile := false;
      dockedScale := 0.12;
    }

    /** `checkMobile`, on mount and on resize; the progress is not recomputed. */
    method CheckMobile(innerWidth: real)
      modifies this`isMobile
      ensures isMobile == IsMobile(innerWidth)
    {
      isMobile := IsMobile(innerWidth);
    }

    /** `handleScroll`, with the mobile flag current when the listener was registered. */
    method HandleScroll(scrollY: real, innerHeight: real)
      requires Valid() && innerHeight > 0.0
      modifies this`scrollProgress
      ensures Valid()
      ensures scrollProgress == ScrollProgress(scrollY, innerHeight, isMobile)
    {
      scrollProgress := ScrollProgress(scrollY, innerHeight, isMobile);
    }

    /** `calculateScale`, on mount and on resize. */
    method CalculateScale(innerWidth: real)
      requires Valid() && innerWidth >= 0.0
      modifies this`dockedScale
      ensures Valid()
      ensures dockedScale == DockedScale(innerWidth)
    {
      dockedScale := DockedScale(innerWidth);
    }

    /**
     * The style the logo renders with. Away from home it is the black,
     * shadowless, docked logo; with a non-negative progress its scale lies
     * between the docked scale and 1.
     */
    function Style(view: App.View, theme: App.Theme): (s: LogoStyle)
      reads this
      requires Valid()
      ensures view != App.Home ==> s == LogoStyle(DockedTransform(dockedScale, isMobile), Black, false)
      ensures scrollProgress >= 0.0 ==> dockedScale <= s.transform.scale <= 1.0
    {
      LogoStyle(
        LogoTransform(view, scrollProgress, dockedScale, isMobile),
        LogoColor(view, scrollProgress, theme),
        HasTextShadow(view, scrollProgress))
    }
  }
}
