/**
 * The page bookkeeping of Source/SwipePager.swift as pure definitions: the
 * lookup of a controller's index, the neighbour lookups the page view
 * controller asks for, the reset rule for `currentPage`, the choice of a
 * transition direction and the highlight pattern of the menu strip. The
 * class in swipe_pager.dfy is proved against these.
 */
module PageIndex {

  import opened Wrappers
  import opened PagerMenu

  /** Foundation's NSNotFound, which is Int.max on 64-bit platforms. */
  const NotFound: int := 0x7FFF_FFFF_FFFF_FFFF

  /** A page: an opaque view controller, compared by identity. */
  datatype ViewController = ViewController(id: nat)

  /** UIPageViewControllerNavigationDirection. */
  datatype Direction = Forward | Reverse

  /**
   * A Swift array's count is an Int, so it never exceeds Int.max == NotFound;
   * every real index therefore differs from the sentinel.
   */
  predicate Countable<T>(s: seq<T>)
  {
    |s| <= NotFound
  }

  predicate Distinct<T(==)>(s: seq<T>)
  {
    forall i, j :: 0 <= i < j < |s| ==> s[i] != s[j]
  }

  /** The first position of `vc` in `vcs`, or NotFound when it does not occur. */
  function IndexOf(vcs: seq<ViewController>, vc: ViewController): (r: int)
    requires Countable(vcs)
    ensures r == NotFound <==> vc !in vcs
    ensures r != NotFound ==> 0 <= r < |vcs| && vcs[r] == vc
    ensures r != NotFound ==> forall j :: 0 <= j < r ==> vcs[j] != vc
  {
    if vcs == [] then NotFound
    else if vcs[0] == vc then 0
    else
      var k := IndexOf(vcs[1..], vc);
      if k == NotFound then NotFound else k + 1
  }

  /** In a list without repetitions, every element is found at its own position. */
  lemma IndexOfDistinct(vcs: seq<ViewController>, k: int)
    requires Countable(vcs) && Distinct(vcs) && 0 <= k < |vcs|
    ensures IndexOf(vcs, vcs[k]) == k
  {
  }

  /** The controller shown before `vc` when swiping back, if any. */
  function Before(vcs: seq<ViewController>, vc: ViewController): (r: Option<ViewController>)
    requires Countable(vcs)
    ensures r.Some? <==> vc in vcs && vcs[0] != vc
    ensures r.Some? ==> r.value == vcs[IndexOf(vcs, vc) - 1]
  {
    var index := IndexOf(vcs, vc);
    if index == NotFound then None
    else if 0 <= index - 1 < |vcs| then Some(vcs[index - 1])
    else None
  }

  /** The controller shown after `vc` when swiping forward, if any. */
  function After(vcs: seq<ViewController>, vc: ViewController): (r: Option<ViewController>)
    requires Countable(vcs)
    ensures r.Some? <==> |vcs| > 0 && vc in vcs[..|vcs| - 1]
    ensures r.Some? ==> r.value == vcs[IndexOf(vcs, vc) + 1]
  {
    var index := IndexOf(vcs, vc);
    if index == NotFound then None
    else if 0 <= index + 1 < |vcs| then Some(vcs[index + 1])
    else None
  }

  /** In a list without repetitions, going forward and then back returns to the start. */
  lemma AfterThenBefore(vcs: seq<ViewController>, vc: ViewController)
    requires Countable(vcs) && Distinct(vcs)
    requires After(vcs, vc).Some?
    ensures Before(vcs, After(vcs, vc).value) == Some(vc)
  {
  }

  /** In a list without repetitions, going back and then forward returns to the start. */
  lemma BeforeThenAfter(vcs: seq<ViewController>, vc: ViewController)
    requires Countable(vcs) && Distinct(vcs)
    requires Before(vcs, vc).Some?
    ensures After(vcs, Before(vcs, vc).value) == Some(vc)
  {
  }

  /**
   * The lookups use the FIRST occurrence: with a repeated controller the
   * round trip breaks, and a repeated last controller still has a successor.
   */
  lemma RepeatedControllerBreaksRoundTrip()
    ensures var a, b := ViewController(0), ViewController(1);
      After([a, b, a], b) == Some(a) && Before([a, b, a], a) == None && After([a, b, a], a) == Some(b)
  {
  }

  /** Swift's `page >= count` against an optional count: an absent count is below every Int. */
  predicate AtOrPast(page: int, count: Option<nat>)
  {
    count.None? || page >= count.value
  }

  /**
   * `settingCurrentPage`: the page is kept unless it is at or past the number
   * of menus or of controllers (or the data source is absent), then it is 0.
   */
  function ValidatedPage(page: int, menuCount: Option<nat>, pageCount: Option<nat>): (r: int)
    ensures r == page || r == 0
    ensures menuCount.None? || pageCount.None? ==> r == 0
    ensures menuCount.Some? && pageCount.Some? ==>
      (r == page <==> page == 0 || (page < menuCount.value && page < pageCount.value))
  {
    var correct := !AtOrPast(page, menuCount) && !AtOrPast(page, pageCount);
    if correct then page else 0
  }

  /** A non-negative page ends up inside each list that is non-empty. */
  lemma ValidatedPageInRange(page: int, menuCount: nat, pageCount: nat)
    requires page >= 0
    ensures 0 <= ValidatedPage(page, Some(menuCount), Some(pageCount))
    ensures menuCount > 0 ==> ValidatedPage(page, Some(menuCount), Some(pageCount)) < menuCount
    ensures pageCount > 0 ==> ValidatedPage(page, Some(menuCount), Some(pageCount)) < pageCount
  {
  }

  /** A negative page is not caught by the check. */
  lemma NegativePageSurvives(page: int, menuCount: nat, pageCount: nat)
    requires page < 0
    ensures ValidatedPage(page, Some(menuCount), Some(pageCount)) == page
  {
  }

  /** Validating twice against the same counts changes nothing more. */
  lemma ValidatedPageIdempotent(page: int, menuCount: Option<nat>, pageCount: Option<nat>)
    ensures var p := ValidatedPage(page, menuCount, pageCount);
      ValidatedPage(p, menuCount, pageCount) == p
  {
  }

  /** `didTapMenu`: the direction of the transition to `target`, none when already there. */
  function TapDirection(current: int, target: int): (r: Option<Direction>)
    ensures r.None? <==> current == target
    ensures r == Some(Forward) <==> current < target
    ensures r == Some(Reverse) <==> current > target
  {
    if current > target then Some(Reverse)
    else if current < target then Some(Forward)
    else None
  }

  /** `selectViewControllerAtIndex`: Forward exactly when the target lies past the current index. */
  function SelectDirection(current: int, target: int): (r: Direction)
    ensures r == Forward <==> target > current
  {
    if target > current then Forward else Reverse
  }

  /** Both kinds of navigation agree on the direction whenever a tap moves at all... */
  lemma SelectAgreesWithTap(current: int, target: int)
    requires current != target
    ensures TapDirection(current, target) == Some(SelectDirection(current, target))
  {
  }

  /** ...and a selection of the current index goes Reverse, where a tap requests nothing. */
  lemma SelectTieIsReverse(current: int)
    ensures SelectDirection(current, current) == Reverse && TapDirection(current, current) == None
  {
  }

  /** `menuHighlight(index)`: the shade of each of `n` menus afterwards. */
  function Highlighting(n: nat, index: int): (r: seq<Shade>)
    ensures |r| == n
    ensures forall j :: 0 <= j < n ==> (r[j] == Highlighted <==> j == index)
  {
    seq(n, j => if j == index then Highlighted else Normal)
  }

  /** The number of menus drawn in `shade`. */
  function Count(shades: seq<Shade>, shade: Shade): nat
  {
    if shades == [] then 0
    else Count(shades[..|shades| - 1], shade) + (if shades[|shades| - 1] == shade then 1 else 0)
  }

  /** Exactly one menu is highlighted for an index in range, none for any other (e.g. NotFound). */
  lemma {:induction false} HighlightingCount(n: nat, index: int)
    ensures Count(Highlighting(n, index), Highlighted) == if 0 <= index < n then 1 else 0
  {
    if n > 0 {
      assert Highlighting(n, index)[..n - 1] == Highlighting(n - 1, index);
      HighlightingCount(n - 1, index);
    }
  }
}
