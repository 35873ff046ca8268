/** The navigation bar's `scrolled` flag, which switches it to an opaque background. */
module Navbar {

  /** Vertical scroll distance in pixels past which the bar counts as scrolled. */
  const ScrollThreshold: int := 100

  /**
   * The scroll listener's new value of `scrolled` for the window's `scrollY`,
   * which the browser may report in fractions of a pixel.
   */
  predicate IsScrolled(scrollY: real) {
    scrollY > ScrollThreshold as real
  }

  /**
   * The comparison is strict: 100 pixels is not yet scrolled, anything past it is;
   * over whole pixels that means 101 or more.
   */
  lemma ScrolledBoundary(pixels: int)
    ensures IsScrolled(pixels as real) <==> pixels >= ScrollThreshold + 1
    ensures !IsScrolled(100.0) && IsScrolled(100.5) && IsScrolled(101.0)
  {
  }

  /** Scrolling further down never clears the flag. */
  lemma ScrolledIsMonotone(a: real, b: real)
    requires a <= b
    ensures IsScrolled(a) ==> IsScrolled(b)
  {
  }
}
