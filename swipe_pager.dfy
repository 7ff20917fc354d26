/**
 * The coordinator of Source/SwipePager.swift, with UIKit abstracted away.
 * It keeps two separate position variables, as the source does:
 * `currentPage` (public; the page `reloadData` validates, highlights and
 * shows) and `currentIndex` (private; moved only by taps and swipes, and
 * the value the delegate is told). The embedded UIPageViewController is
 * reduced to the last transition it was asked for, and the delegate to the
 * log of pages it was told about.
 */
module Pager {

  import opened Wrappers
  import opened PagerMenu
  import opened PageIndex

  /** What the page view controller calls back when a transition ends. */
  datatype Completion = NoCompletion | NotifyIfFinished

  /** A `setViewControllers` request to the page view controller. */
  datatype Transition = Transition(
    target: ViewController,
    direction: Direction,
    animated: bool,
    completion: Completion)

  /** The answers of the data source: its menu views and its view controllers. */
  datatype DataSource = DataSource(menus: seq<SwipePagerMenu>, viewControllers: seq<ViewController>)

  function MenuCount(source: Option<DataSource>): Option<nat>
  {
    if source.Some? then Some(|source.value.menus|) else None
  }

  function PageCount(source: Option<DataSource>): Option<nat>
  {
    if source.Some? then Some(|source.value.viewControllers|) else None
  }

  /** The menus a data source hands over (none when it is absent). */
  function MenusOf(source: Option<DataSource>): seq<SwipePagerMenu>
  {
    if source.Some? then source.value.menus else []
  }

  /** A data source the model can take: distinct menu objects, a countable page list. */
  predicate Acceptable(source: DataSource)
  {
    Distinct(source.menus) && Countable(source.viewControllers)
  }

  class SwipePager {
    var currentPage: int
    var currentIndex: int
    var menuViewArray: seq<SwipePagerMenu>
    var viewControllers: seq<ViewController>
    /** The last request made to the page view controller, if any. */
    var lastTransition: Option<Transition>
    /** Every page the delegate was told the pager moved to, oldest first. */
    var notifications: seq<int>

    ghost predicate Valid()
      reads this
    {
      Distinct(menuViewArray) && Countable(viewControllers)
    }

    /** Menu i of the strip displays `shades[i]`, for every i. */
    ghost predicate Displays(shades: seq<Shade>)
      reads this, menuViewArray
    {
      |shades| == |menuViewArray| &&
      forall j :: 0 <= j < |shades| ==> menuViewArray[j].Shows(shades[j])
    }

    constructor ()
      ensures Valid()
      ensures currentPage == 0 && currentIndex == 0
      ensures menuViewArray == [] && viewControllers == []
      ensures lastTransition == None && notifications == []
    {
      currentPage, currentIndex := 0, 0;
      menuViewArray, viewControllers := [], [];
      lastTransition, notifications := None, [];
    }

    /**
     * Validates `currentPage`, rebuilds the menu strip highlighting
     * `currentPage`, and shows `viewControllers[currentPage]` without
     * animation. `currentIndex` is left alone.
     */
    method ReloadData(source: Option<DataSource>)
      requires Valid()
      requires source.Some? ==> Acceptable(source.value)
      requires source.Some? && source.value.viewControllers != [] ==> currentPage >= 0
      modifies this`currentPage, this`menuViewArray, this`viewControllers, this`lastTransition
      modifies menuViewArray, MenusOf(source)
      ensures Valid()
      ensures currentPage == ValidatedPage(old(currentPage), MenuCount(source), PageCount(source))
      ensures menuViewArray == if source.Some? then source.value.menus else old(menuViewArray)
      ensures viewControllers == if source.Some? then source.value.viewControllers else old(viewControllers)
      ensures Displays(Highlighting(|menuViewArray|, currentPage))
      ensures source.Some? ==> forall j :: 0 <= j < |menuViewArray| ==>
        menuViewArray[j].tag == j && menuViewArray[j].LabelConfigured() &&
        menuViewArray[j].Configuration() == old(source.value.menus[j].Configuration())
      ensures source.None? ==> forall j :: 0 <= j < |menuViewArray| ==>
        menuViewArray[j].Configuration() == old(menuViewArray[j].Configuration()) &&
        menuViewArray[j].tag == old(menuViewArray[j].tag) &&
        menuViewArray[j].labelText == old(menuViewArray[j].labelText) &&
        menuViewArray[j].labelFont == old(menuViewArray[j].labelFont)
      ensures source.Some? && viewControllers != [] ==>
        0 <= currentPage < |viewControllers| &&
        lastTransition == Some(Transition(viewControllers[currentPage], Forward, false, NoCompletion))
      ensures source.None? || viewControllers == [] ==> lastTransition == old(lastTransition)
      ensures currentIndex == old(currentIndex) && notifications == old(notifications)
      ensures forall m :: m in old(menuViewArray) && m !in menuViewArray ==> unchanged(m)
    {
      SettingCurrentPage(source);
      if source.Some? && old(currentPage) >= 0 {
        ValidatedPageInRange(old(currentPage), |source.value.menus|, |source.value.viewControllers|);
      }
      LayoutMenuScrollView(source, currentPage);
      PageViewControllerReloadData(source);
    }

    /** Resets `currentPage` to 0 when it is at or past either list's length. */
    method SettingCurrentPage(source: Option<DataSource>)
      modifies this`currentPage
      ensures currentPage == ValidatedPage(old(currentPage), MenuCount(source), PageCount(source))
    {
      var correct := true;
      if AtOrPast(currentPage, MenuCount(source)) {
        correct := false;
      }
      if AtOrPast(currentPage, PageCount(source)) {
        correct := false;
      }
      if !correct {
        currentPage := 0;
      }
    }

    /**
     * Takes the data source's menus (if any), tags item i with i, configures
     * each one, and highlights `page`.
     */
    method LayoutMenuScrollView(source: Option<DataSource>, page: int)
      requires Valid()
      requires source.Some? ==> Acceptable(source.value)
      modifies this`menuViewArray, menuViewArray, MenusOf(source)
      ensures Valid()
      ensures menuViewArray == if source.Some? then source.value.menus else old(menuViewArray)
      ensures Displays(Highlighting(|menuViewArray|, page))
      ensures source.Some? ==> forall j :: 0 <= j < |menuViewArray| ==>
        menuViewArray[j].tag == j && menuViewArray[j].LabelConfigured() &&
        menuViewArray[j].Configuration() == old(source.value.menus[j].Configuration())
      ensures source.None? ==> forall j :: 0 <= j < |menuViewArray| ==>
        menuViewArray[j].Configuration() == old(menuViewArray[j].Configuration()) &&
        menuViewArray[j].tag == old(menuViewArray[j].tag) &&
        menuViewArray[j].labelText == old(menuViewArray[j].labelText) &&
        menuViewArray[j].labelFont == old(menuViewArray[j].labelFont)
      ensures forall m :: m in old(menuViewArray) && m !in menuViewArray ==> unchanged(m)
    {
      if source.Some? {
        menuViewArray := source.value.menus;
        var index := 0;
        while index < |menuViewArray|
          invariant 0 <= index <= |menuViewArray|
          invariant menuViewArray == source.value.menus
          invariant forall j :: 0 <= j < index ==>
            menuViewArray[j].tag == j && menuViewArray[j].LabelConfigured()
          invariant forall j :: 0 <= j < |menuViewArray| ==>
            menuViewArray[j].Configuration() == old(source.value.menus[j].Configuration())
          invariant forall m :: m in old(menuViewArray) && m !in menuViewArray ==> unchanged(m)
        {
          var view := menuViewArray[index];
          view.Config();
          view.tag := index;
          index := index + 1;
        }
      }
      MenuHighlight(page);
    }

    /** Takes the data source's controllers (if any) and shows `currentPage` without animation. */
    method PageViewControllerReloadData(source: Option<DataSource>)
      requires Valid()
      requires source.Some? ==> Acceptable(source.value)
      requires source.Some? && source.value.viewControllers != [] ==>
        0 <= currentPage < |source.value.viewControllers|
      modifies this`viewControllers, this`lastTransition
      ensures Valid()
      ensures viewControllers == if source.Some? then source.value.viewControllers else old(viewControllers)
      ensures lastTransition ==
        if source.Some? && viewControllers != []
        then Some(Transition(viewControllers[currentPage], Forward, false, NoCompletion))
        else old(lastTransition)
    {
      if source.Some? {
        viewControllers := source.value.viewControllers;
        if |viewControllers| > 0 {
          lastTransition := Some(Transition(viewControllers[currentPage], Forward, false, NoCompletion));
        }
      }
    }

    /**
     * A tap on a menu view: the view's tag is the page to go to. A transition
     * is requested only when the tag differs from `currentIndex`; in every
     * case `currentIndex` becomes the tag and its menu is highlighted.
     */
    method DidTapMenu(view: SwipePagerMenu)
      requires Valid()
      requires view.tag != currentIndex ==> 0 <= view.tag < |viewControllers|
      modifies this`currentIndex, this`lastTransition, menuViewArray
      ensures Valid()
      ensures currentIndex == old(view.tag)
      ensures lastTransition ==
        match TapDirection(old(currentIndex), old(view.tag))
        case None => old(lastTransition)
        case Some(d) => Some(Transition(viewControllers[old(view.tag)], d, true, NotifyIfFinished))
      ensures Displays(Highlighting(|menuViewArray|, currentIndex))
      ensures forall j :: 0 <= j < |menuViewArray| ==>
        menuViewArray[j].Configuration() == old(menuViewArray[j].Configuration()) &&
        menuViewArray[j].tag == old(menuViewArray[j].tag) &&
        menuViewArray[j].labelText == old(menuViewArray[j].labelText) &&
        menuViewArray[j].labelFont == old(menuViewArray[j].labelFont)
      ensures currentPage == old(currentPage) && notifications == old(notifications)
    {
      var index := view.tag;
      var direction := TapDirection(currentIndex, index);
      if direction.Some? {
        lastTransition := Some(Transition(viewControllers[index], direction.value, true, NotifyIfFinished));
      }
      currentIndex := index;
      MenuHighlight(index);
    }

    /** The completion handler a tap attaches: only a finished transition notifies. */
    method TapTransitionCompleted(finished: bool)
      modifies this`notifications
      ensures notifications == old(notifications) + if finished then [currentIndex] else []
    {
      if finished {
        DidMoveToPage();
      }
    }

    /**
     * Programmatic navigation: shows page `index` and highlights its menu,
     * but moves neither `currentIndex` nor `currentPage` and notifies nobody.
     */
    method SelectViewControllerAtIndex(index: int, animated: bool)
      requires Valid()
      requires 0 <= index < |viewControllers|
      modifies this`lastTransition, menuViewArray
      ensures Valid()
      ensures lastTransition ==
        Some(Transition(viewControllers[index], SelectDirection(currentIndex, index), animated, NoCompletion))
      ensures Displays(Highlighting(|menuViewArray|, index))
      ensures forall j :: 0 <= j < |menuViewArray| ==>
        menuViewArray[j].Configuration() == old(menuViewArray[j].Configuration()) &&
        menuViewArray[j].tag == old(menuViewArray[j].tag) &&
        menuViewArray[j].labelText == old(menuViewArray[j].labelText) &&
        menuViewArray[j].labelFont == old(menuViewArray[j].labelFont)
      ensures currentIndex == old(currentIndex) && currentPage == old(currentPage)
      ensures notifications == old(notifications)
    {
      lastTransition := Some(Transition(viewControllers[index],
        if index > currentIndex then Forward else Reverse, animated, NoCompletion));
      MenuHighlight(index);
    }

    /** The first position of `vc` among the pages, or NotFound. */
    method IndexOfViewController(vc: ViewController) returns (r: int)
      requires Valid()
      ensures r == IndexOf(viewControllers, vc)
      ensures r == NotFound <==> vc !in viewControllers
      ensures r != NotFound ==> 0 <= r < |viewControllers| && viewControllers[r] == vc
    {
      var i := 0;
      while i < |viewControllers|
        invariant 0 <= i <= |viewControllers|
        invariant vc !in viewControllers[..i]
      {
        if vc == viewControllers[i] {
          return i;
        }
        i := i + 1;
      }
      return NotFound;
    }

    /** Every menu becomes Normal, then the one at `index` (if any) Highlighted. */
    method MenuHighlight(index: int)
      requires Valid()
      modifies menuViewArray
      ensures Displays(Highlighting(|menuViewArray|, index))
      ensures forall j :: 0 <= j < |menuViewArray| ==>
        menuViewArray[j].Configuration() == old(menuViewArray[j].Configuration()) &&
        menuViewArray[j].tag == old(menuViewArray[j].tag) &&
        menuViewArray[j].labelText == old(menuViewArray[j].labelText) &&
        menuViewArray[j].labelFont == old(menuViewArray[j].labelFont)
    {
      var i := 0;
      while i < |menuViewArray|
        invariant 0 <= i <= |menuViewArray|
        invariant forall j :: 0 <= j < i ==>
          menuViewArray[j].Shows(if j == index then Highlighted else Normal)
        invariant forall j :: 0 <= j < |menuViewArray| ==>
          menuViewArray[j].Configuration() == old(menuViewArray[j].Configuration()) &&
          menuViewArray[j].tag == old(menuViewArray[j].tag) &&
          menuViewArray[j].labelText == old(menuViewArray[j].labelText) &&
          menuViewArray[j].labelFont == old(menuViewArray[j].labelFont)
      {
        var menu := menuViewArray[i];
        menu.StateNormal();
        if i == index {
          menu.StateHighlight();
        }
        i := i + 1;
      }
    }

    /** Tells the delegate the pager moved to `currentIndex`, as it stands now. */
    method DidMoveToPage()
      modifies this`notifications
      ensures notifications == old(notifications) + [currentIndex]
    {
      notifications := notifications + [currentIndex];
    }

    /** Data source of the page view controller: the page before `vc`. */
    method ViewControllerBefore(vc: ViewController) returns (r: Option<ViewController>)
      requires Valid()
      ensures r == Before(viewControllers, vc)
    {
      var index := IndexOfViewController(vc);
      if index == NotFound {
        return None;
      }
      index := index - 1;
      if 0 <= index < |viewControllers| {
        return Some(viewControllers[index]);
      }
      return None;
    }

    /** Data source of the page view controller: the page after `vc`. */
    method ViewControllerAfter(vc: ViewController) returns (r: Option<ViewController>)
      requires Valid()
      ensures r == After(viewControllers, vc)
    {
      var index := IndexOfViewController(vc);
      if index == NotFound {
        return None;
      }
      index := index + 1;
      if 0 <= index < |viewControllers| {
        return Some(viewControllers[index]);
      }
      return None;
    }

    /** A swipe starts: `currentIndex` becomes the position of the first pending page. */
    method WillTransitionTo(pendingViewControllers: seq<ViewController>)
      requires Valid()
      modifies this`currentIndex
      ensures currentIndex ==
        if pendingViewControllers != [] then IndexOf(viewControllers, pendingViewControllers[0])
        else old(currentIndex)
    {
      if |pendingViewControllers| > 0 {
        var viewController := pendingViewControllers[0];
        currentIndex := IndexOfViewController(viewController);
      }
    }

    /** A swipe ends: if it completed, highlight `currentIndex` and tell the delegate. */
    method DidFinishAnimating(finished: bool, previousViewControllers: seq<ViewController>, completed: bool)
      requires Valid()
      modifies this`notifications, menuViewArray
      ensures completed ==> Displays(Highlighting(|menuViewArray|, currentIndex))
      ensures completed ==> forall j :: 0 <= j < |menuViewArray| ==>
        menuViewArray[j].Configuration() == old(menuViewArray[j].Configuration()) &&
        menuViewArray[j].tag == old(menuViewArray[j].tag) &&
        menuViewArray[j].labelText == old(menuViewArray[j].labelText) &&
        menuViewArray[j].labelFont == old(menuViewArray[j].labelFont)
      ensures !completed ==> unchanged(menuViewArray)
      ensures notifications == old(notifications) + if completed then [currentIndex] else []
    {
      if completed {
        MenuHighlight(currentIndex);
        DidMoveToPage();
      }
    }
  }
}
