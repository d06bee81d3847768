/** The breakpoint classifier of the responsive hook
    (frontend/src/hooks/useResponsive.js): the viewport class of a window
    width and the mobile/tablet/desktop flags derived from it. */
module Responsive {
  datatype Viewport = Mobile | Sm | Md | Lg | Xl | Xxl
  {
    /** The position of the class in the breakpoint order. */
    function Rank(): nat
    {
      match this
      case Mobile => 0
      case Sm => 1
      case Md => 2
      case Lg => 3
      case Xl => 4
      case Xxl => 5
    }

    predicate IsMobile()
    {
      this == Mobile || this == Sm
    }

    predicate IsTablet()
    {
      this == Md
    }

    predicate IsDesktop()
    {
      this == Lg || this == Xl || this == Xxl
    }
  }

  /** The lower bounds of `sm`, `md`, `lg`, `xl` and `2xl`. */
  const SmWidth: int := 640
  const MdWidth: int := 768
  const LgWidth: int := 1024
  const XlWidth: int := 1280
  const XxlWidth: int := 1536

  /** `getViewportSize(width)`: each class covers a half-open band of widths. */
  function GetViewportSize(width: int): (v: Viewport)
    ensures v == Mobile <==> width < SmWidth
    ensures v == Sm <==> SmWidth <= width < MdWidth
    ensures v == Md <==> MdWidth <= width < LgWidth
    ensures v == Lg <==> LgWidth <= width < XlWidth
    ensures v == Xl <==> XlWidth <= width < XxlWidth
    ensures v == Xxl <==> XxlWidth <= width
  {
    if width < SmWidth then Mobile
    else if width < MdWidth then Sm
    else if width < LgWidth then Md
    else if width < XlWidth then Lg
    else if width < XxlWidth then Xl
    else Xxl
  }

  /** The state initialiser: without a `window` (server rendering) the
      viewport starts as `mobile`. */
  function InitialViewport(hasWindow: bool, innerWidth: int): (v: Viewport)
    ensures !hasWindow ==> v == Mobile
    ensures hasWindow ==> v == GetViewportSize(innerWidth)
  {
    if !hasWindow then Mobile else GetViewportSize(innerWidth)
  }

  /** A wider window never gets a smaller class. */
  lemma ViewportMonotone(narrow: int, wide: int)
    requires narrow <= wide
    ensures GetViewportSize(narrow).Rank() <= GetViewportSize(wide).Rank()
  {
  }

  /** Exactly one of the three flags holds for every class. */
  lemma ExactlyOneFlag(v: Viewport)
    ensures v.IsMobile() || v.IsTablet() || v.IsDesktop()
    ensures !(v.IsMobile() && v.IsTablet())
    ensures !(v.IsMobile() && v.IsDesktop())
    ensures !(v.IsTablet() && v.IsDesktop())
  {
  }

  /** In terms of width: mobile below 768 (so `sm` counts as mobile),
      tablet from 768 to 1023, desktop from 1024 on. */
  lemma FlagsByWidth(width: int)
    ensures GetViewportSize(width).IsMobile() <==> width < MdWidth
    ensures GetViewportSize(width).IsTablet() <==> MdWidth <= width < LgWidth
    ensures GetViewportSize(width).IsDesktop() <==> LgWidth <= width
  {
  }
}
