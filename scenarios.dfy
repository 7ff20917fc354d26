/**
 * Clients of the pager: short event sequences on a four-page pager whose
 * outcomes follow from the contracts of swipe_pager.dfy alone. They show
 * the eager update of `currentIndex`, the deferred notification, and the
 * drift between `currentPage` and `currentIndex`.
 */
module Scenarios {

  import opened Wrappers
  import opened PagerMenu
  import opened PageIndex
  import opened Pager

  const Pages: seq<ViewController> :=
    [ViewController(0), ViewController(1), ViewController(2), ViewController(3)]

  /** The colours every scenario menu is configured with; the two shades differ. */
  const Tab: Settings :=
    Settings(None, None, Some(Color(0)), Some(Color(1)), Some(Color(2)), Some(Color(3)))

  /** A fresh menu configured with `Tab`. */
  method TabMenu() returns (m: SwipePagerMenu)
    ensures fresh(m) && m.Configuration() == Tab
  {
    m := new SwipePagerMenu();
    m.stateNormalColor, m.stateNormalFontColor := Some(Color(0)), Some(Color(1));
    m.stateHighlightColor, m.stateHighlightFontColor := Some(Color(2)), Some(Color(3));
  }

  /** A fresh pager reloaded from four fresh menus and four pages. */
  method FourPagePager() returns (p: SwipePager)
    ensures fresh(p) && p.Valid()
    ensures |p.menuViewArray| == 4 && p.viewControllers == Pages
    ensures forall j :: 0 <= j < 4 ==> p.menuViewArray[j].Configuration() == Tab
    ensures forall j :: 0 <= j < 4 ==> fresh(p.menuViewArray[j]) && p.menuViewArray[j].tag == j
    ensures p.currentPage == 0 && p.currentIndex == 0 && p.notifications == []
    ensures p.lastTransition == Some(Transition(ViewController(0), Forward, false, NoCompletion))
    ensures p.Displays(Highlighting(4, 0))
  {
    var m0 := TabMenu();
    var m1 := TabMenu();
    var m2 := TabMenu();
    var m3 := TabMenu();
    p := new SwipePager();
    p.ReloadData(Some(DataSource([m0, m1, m2, m3], Pages)));
  }

  /**
   * Tap menu 3 on page 0: a Forward transition is requested, `currentIndex`
   * moves to 3 and menu 3 lights up at once; the delegate hears of page 3
   * only when the transition reports success, and then exactly once.
   */
  method TapThenComplete() returns (request: Option<Transition>, index: int, lit: bool, othersLit: bool, log: seq<int>)
    ensures request == Some(Transition(ViewController(3), Forward, true, NotifyIfFinished))
    ensures index == 3 && lit && !othersLit && log == [3]
  {
    var p := FourPagePager();
    p.DidTapMenu(p.menuViewArray[3]);
    request, index := p.lastTransition, p.currentIndex;
    lit := p.menuViewArray[3].Shows(Highlighted);
    othersLit := p.menuViewArray[0].Shows(Highlighted) || p.menuViewArray[1].Shows(Highlighted) ||
      p.menuViewArray[2].Shows(Highlighted);
    assert p.notifications == [];
    p.TapTransitionCompleted(true);
    log := p.notifications;
  }

  /**
   * A swipe from page 1 towards page 0 that the user cancels: `currentIndex`
   * already reads 0 when the swipe starts and still reads 0 afterwards, and
   * no notification is added.
   */
  method CancelledSwipe() returns (before: int, after: int, log: seq<int>)
    ensures before == 0 && after == 0 && log == [1]
  {
    var p := FourPagePager();
    p.DidTapMenu(p.menuViewArray[1]);
    p.TapTransitionCompleted(true);
    p.WillTransitionTo([ViewController(0)]);
    before := p.currentIndex;
    p.DidFinishAnimating(true, [ViewController(1)], false);
    after, log := p.currentIndex, p.notifications;
  }

  /**
   * Two quick taps, 3 then 1: when the first transition finally reports
   * success the delegate is told 1, the index as it stands at completion,
   * not the 3 that was tapped.
   */
  method CompletionReportsLatestIndex() returns (log: seq<int>)
    ensures log == [1]
  {
    var p := FourPagePager();
    p.DidTapMenu(p.menuViewArray[3]);
    p.DidTapMenu(p.menuViewArray[1]);
    p.TapTransitionCompleted(true);
    log := p.notifications;
  }

  /**
   * The two position variables drift apart. After going to page 3 by a tap,
   * a reload shows page 0 and highlights menu 0 (from `currentPage`), while
   * `currentIndex` stays 3. A tap on menu 3 then requests no transition,
   * though page 0 is on screen, and a tap on menu 1 asks for a Reverse
   * transition, though page 1 lies after page 0.
   */
  method ReloadDrift() returns (shown: ViewController, index: int, afterTap3: Option<Transition>, afterTap1: Option<Transition>)
    ensures shown == ViewController(0) && index == 3
    ensures afterTap3 == Some(Transition(ViewController(0), Forward, false, NoCompletion))
    ensures afterTap1 == Some(Transition(ViewController(1), Reverse, true, NotifyIfFinished))
  {
    var p := FourPagePager();
    var menus := p.menuViewArray;
    p.DidTapMenu(menus[3]);
    p.TapTransitionCompleted(true);
    p.ReloadData(Some(DataSource(menus, Pages)));
    shown, index := p.lastTransition.value.target, p.currentIndex;
    p.DidTapMenu(menus[3]);
    afterTap3 := p.lastTransition;
    p.DidTapMenu(menus[1]);
    afterTap1 := p.lastTransition;
  }

  /**
   * Programmatic selection of page 2 highlights menu 2 but leaves
   * `currentIndex` at 0 and notifies nobody, so a following tap on menu 2
   * requests the transition to page 2 a second time.
   */
  method SelectLeavesIndex() returns (index: int, lit: bool, log: seq<int>, tapRequest: Option<Transition>)
    ensures index == 0 && lit && log == []
    ensures tapRequest == Some(Transition(ViewController(2), Forward, true, NotifyIfFinished))
  {
    var p := FourPagePager();
    p.SelectViewControllerAtIndex(2, true);
    index, log := p.currentIndex, p.notifications;
    lit := p.menuViewArray[2].Shows(Highlighted);
    p.DidTapMenu(p.menuViewArray[2]);
    tapRequest := p.lastTransition;
  }
}
