/**
 * The navigation bar's scroll effect: on every scroll event the bar carries
 * the `scrolled` class when the page is scrolled more than 20 pixels down,
 * and loses it otherwise.
 */
module NavbarScroll {

  /// Scroll offset, in pixels, beyond which the bar counts as scrolled.
  const ScrollThreshold: int := 20

  /// Whether the bar should carry the `scrolled` class at vertical offset `scrollY`.
  predicate ScrolledAt(scrollY: int) {
    scrollY > ScrollThreshold
  }

  /// The class after a series of scroll events at the given offsets, starting
  /// from `scrolled`: only the last offset matters.
  function ScrollRun(scrolled: bool, offsets: seq<int>): (r: bool)
    decreases |offsets|
    ensures offsets == [] ==> r == scrolled
    ensures offsets != [] ==> (r <==> offsets[|offsets| - 1] > 20)
  {
    if offsets == [] then scrolled
    else ScrollRun(ScrolledAt(offsets[0]), offsets[1..])
  }

  /// The comparison is strict: exactly 20 clears the class, 21 sets it.
  lemma ThresholdIsStrict(scrolled: bool)
    ensures !ScrollRun(scrolled, [20])
    ensures ScrollRun(scrolled, [21])
  {
  }

  /// Scrolling to the same offset again changes nothing.
  lemma RepeatedOffsetIdempotent(scrolled: bool, offsets: seq<int>, y: int)
    ensures ScrollRun(scrolled, offsets + [y, y]) == ScrollRun(scrolled, offsets + [y])
  {
  }

  /// The navigation bar element.
  class Navbar {
    var scrolled: bool

    /// The bar as loaded, with or without the class in its markup.
    constructor (initiallyScrolled: bool)
      ensures scrolled == initiallyScrolled
    {
      scrolled := initiallyScrolled;
    }

    /// The scroll handler: `classList.add` / `classList.remove` on the bar.
    method OnScroll(scrollY: int)
      modifies this
      ensures scrolled <==> scrollY > 20
      ensures scrolled == ScrollRun(old(scrolled), [scrollY])
    {
      if ScrolledAt(scrollY) {
        scrolled := true;
      } else {
        scrolled := false;
      }
    }
  }
}
