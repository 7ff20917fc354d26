# SwipePager page bookkeeping, in Dafny

SwipePager is an iOS widget: a horizontally swipeable page container (a
`UIPageViewController`) under or over a strip of tappable menu tabs. This
project models the part of it that is logic rather than layout: which page
index the coordinator believes is current, which menu tab is highlighted,
which page the embedded page view controller is asked to show and in which
direction, what the page view controller gets as a page's neighbours, and when
the delegate is told that the pager moved.

The coordinator keeps two position variables and the model keeps both:
`currentPage`, a public property that `reloadData` validates, highlights and
shows, and `currentIndex`, a private one that only taps and swipes move and
whose value (at completion time) is what the delegate is told.
`selectViewControllerAtIndex` moves neither. Merging the two variables would
remove the drift between them; the code keeps both, and so does the model
(`Scenarios.ReloadDrift` shows the two drifting apart).

Files:

- `wrappers.dfy`: `Option`, standing for Swift optionals.
- `swipe_pager_menu.dfy` (module `PagerMenu`): the menu tab class
  `SwipePagerMenu` with its six configuration properties, its tag and what it
  displays; the pure fold `Restyled` over a sequence of state calls.
- `page_index.dfy` (module `PageIndex`): the page bookkeeping as pure
  functions (`IndexOf`, `Before`, `After`, `ValidatedPage`, `TapDirection`,
  `SelectDirection`, `Highlighting`) and the lemmas about them.
- `swipe_pager.dfy` (module `Pager`): the coordinator class `SwipePager`; each
  method is proved against the functions of `PageIndex`.
- `scenarios.dfy` (module `Scenarios`): event sequences on a four-page pager
  whose outcomes follow from the method contracts alone.

Modelling choices:

- View controllers are opaque values compared by equality (`ViewController(id)`);
  duplicates are allowed and every lookup finds the first match. Colours and
  fonts are opaque values; `None` stands for an unset optional (for the label,
  UIKit's default).
- `NSNotFound` is `Int.max` (`0x7FFF_FFFF_FFFF_FFFF`). A Swift array's count
  is an `Int`, so lists are bounded by that value (`Countable`), which keeps
  every real index distinct from the sentinel.
- A menu tab is Normal (Highlighted) when its displayed background and text
  colour equal its configured normal (highlight) pair (`SwipePagerMenu.Shows`).
- The data source is an `Option<DataSource>` argument of `ReloadData`: absent,
  or the menus and view controllers it returns. Swift's `currentPage >= nil`
  is true, so an absent data source resets `currentPage` to 0.
- The page view controller is reduced to `lastTransition`, the last
  `setViewControllers` request (target, direction, animated, whether a
  completion that notifies was attached). Its callbacks are methods the
  environment calls: `TapTransitionCompleted`, `WillTransitionTo`,
  `DidFinishAnimating`, `ViewControllerBefore`, `ViewControllerAfter`.
- The delegate is the append-only log `notifications`.
- Swift's unchecked array indexing traps; the indexings it guards become
  `requires` clauses (`DidTapMenu`, `SelectViewControllerAtIndex`, and a
  negative `currentPage` in `ReloadData`).

## Model

| member | source | states |
|---|---|---|
| `PagerMenu.SwipePagerMenu.constructor` | Source/SwipePagerMenu.swift:55-61 | A new tab has no configuration, tag 0, no background, and a label with no text, font or colour set. |
| `PagerMenu.SwipePagerMenu.Config` | Source/SwipePagerMenu.swift:70-74 | The label shows the configured title in the configured font and the tab shows its Normal pair, whatever it showed before; configuration and tag are unchanged. |
| `PagerMenu.SwipePagerMenu.StateNormal` | Source/SwipePagerMenu.swift:76-79 | Background := normal colour and text colour := normal font colour; title, font, the four colours, tag and label text/font are unchanged. |
| `PagerMenu.SwipePagerMenu.StateHighlight` | Source/SwipePagerMenu.swift:81-84 | Background := highlight colour and text colour := highlight font colour; nothing else changes. |
| `PagerMenu.LastCallWins` | Source/SwipePagerMenu.swift:76-84 | After any non-empty sequence of state calls the displayed pair is the one of the last call, whatever was shown first. |
| `PagerMenu.StateCallIdempotent` | Source/SwipePagerMenu.swift:76-84 | Repeating a state call leaves the displayed pair as a single call does. |
| `PageIndex.IndexOf` | Source/SwipePager.swift:221-228 | The result is NotFound exactly when the controller is absent; otherwise it lies in [0, count), holds the controller, and no earlier position does. |
| `PageIndex.IndexOfDistinct` | Source/SwipePager.swift:221-228 | In a list without repetitions each element is found at its own position. |
| `PageIndex.Before` | Source/SwipePager.swift:259-270 | There is a page before `vc` exactly when `vc` occurs and is not the first page; it is the page just before `vc`'s first occurrence. |
| `PageIndex.After` | Source/SwipePager.swift:272-283 | There is a page after `vc` exactly when `vc` occurs somewhere before the last position; it is the page just after `vc`'s first occurrence. |
| `PageIndex.AfterThenBefore` | Source/SwipePager.swift:259-283 | Without repeated controllers, the page before the page after `vc` is `vc`. |
| `PageIndex.BeforeThenAfter` | Source/SwipePager.swift:259-283 | Without repeated controllers, the page after the page before `vc` is `vc`. |
| `PageIndex.RepeatedControllerBreaksRoundTrip` | Source/SwipePager.swift:221-283 | With `[a, b, a]` the page after `b` is `a`, `a` has no page before it, and the last `a` still has a page after it. |
| `PageIndex.ValidatedPage` | Source/SwipePager.swift:240-251 | The page is kept or reset to 0; it is 0 whenever the data source is absent; with both counts it is kept exactly when it is 0 or below both counts. |
| `PageIndex.ValidatedPageInRange` | Source/SwipePager.swift:240-251 | A non-negative page ends up in [0, n) for each list of length n > 0. |
| `PageIndex.NegativePageSurvives` | Source/SwipePager.swift:240-251 | A negative page is not reset. |
| `PageIndex.ValidatedPageIdempotent` | Source/SwipePager.swift:240-251 | Validating an already validated page against the same counts keeps it. |
| `PageIndex.TapDirection` | Source/SwipePager.swift:175-181 | No direction exactly when the target is the current index; Forward exactly when it lies after it; Reverse exactly when it lies before. |
| `PageIndex.SelectDirection` | Source/SwipePager.swift:202 | Forward exactly when the target lies after the current index. |
| `PageIndex.SelectAgreesWithTap` | Source/SwipePager.swift:175-202 | Whenever a tap requests a transition, selection picks the same direction. |
| `PageIndex.SelectTieIsReverse` | Source/SwipePager.swift:175-202 | Selecting the current index goes Reverse, where a tap requests nothing. |
| `PageIndex.Highlighting` | Source/SwipePager.swift:230-238 | One shade per menu, same length as the strip; a menu is Highlighted exactly when its position is the index. |
| `PageIndex.HighlightingCount` | Source/SwipePager.swift:230-238 | Exactly one menu is Highlighted for an index in range, and none for any other index (NotFound, negative). |
| `Pager.SwipePager.constructor` | Source/SwipePager.swift:53-61 | Both positions start at 0, with no menus, no pages, no transition request and no notification. |
| `Pager.SwipePager.ReloadData` | Source/SwipePager.swift:80-84 | `currentPage` is validated; the data source's menus replace the strip, each tagged with its position, configured, and only `currentPage` highlighted, while menus of the old strip are left untouched; its pages replace the list, and a non-empty list is shown at `currentPage`, Forward, without animation; `currentIndex` and the notifications are untouched; an absent data source changes only `currentPage` and the highlight. |
| `Pager.SwipePager.SettingCurrentPage` | Source/SwipePager.swift:240-251 | `currentPage` becomes `ValidatedPage` of its old value and the two counts. |
| `Pager.SwipePager.LayoutMenuScrollView` | Source/SwipePager.swift:115-145 | The strip becomes the data source's menus (or stays), menu i gets tag i and a configured label, and only `page` is highlighted; configurations are unchanged, and so are the menus of a replaced strip. |
| `Pager.SwipePager.PageViewControllerReloadData` | Source/SwipePager.swift:147-169 | The pages become the data source's list (or stay); a non-empty list is shown at `currentPage`, Forward, unanimated, with no completion. |
| `Pager.SwipePager.DidTapMenu` | Source/SwipePager.swift:171-197 | The tapped view's tag becomes `currentIndex` and the only highlighted menu; an animated transition with a notifying completion is requested, in `TapDirection`, exactly when the tag differs from the old `currentIndex`; each menu keeps its configuration, tag and label. |
| `Pager.SwipePager.TapTransitionCompleted` | Source/SwipePager.swift:187-191 | A successful completion appends `currentIndex` as it stands then; a failed one appends nothing. |
| `Pager.SwipePager.SelectViewControllerAtIndex` | Source/SwipePager.swift:199-207 | The page at `index` is requested in `SelectDirection`, without completion, and only its menu is highlighted; `currentIndex`, `currentPage`, the notifications and each menu's configuration, tag and label are unchanged. |
| `Pager.SwipePager.IndexOfViewController` | Source/SwipePager.swift:221-228 | The loop returns `IndexOf`: NotFound exactly when absent, else a position holding the controller. |
| `Pager.SwipePager.MenuHighlight` | Source/SwipePager.swift:230-238 | The strip displays `Highlighting(count, index)`; order, length, configuration, tags and labels are unchanged. |
| `Pager.SwipePager.DidMoveToPage` | Source/SwipePager.swift:253-255 | The delegate is told `currentIndex`, once. |
| `Pager.SwipePager.ViewControllerBefore` | Source/SwipePager.swift:259-270 | Returns `Before` of the page list. |
| `Pager.SwipePager.ViewControllerAfter` | Source/SwipePager.swift:272-283 | Returns `After` of the page list. |
| `Pager.SwipePager.WillTransitionTo` | Source/SwipePager.swift:287-294 | A non-empty pending list sets `currentIndex` to the first pending page's `IndexOf` (possibly NotFound); an empty one changes nothing. |
| `Pager.SwipePager.DidFinishAnimating` | Source/SwipePager.swift:296-304 | A completed swipe highlights `currentIndex` alone, keeping each menu's configuration, tag and label, and appends it to the notifications once; an uncompleted one changes nothing. |
| `Scenarios.TapThenComplete` | Source/SwipePager.swift:171-197 | Tapping menu 3 on page 0 requests Forward to page 3, moves `currentIndex` to 3 and lights menu 3, and no other, at once; success notifies page 3 exactly once. |
| `Scenarios.CancelledSwipe` | Source/SwipePager.swift:287-304 | A swipe from page 1 to page 0 sets `currentIndex` to 0 at its start; cancelling it keeps 0 and notifies nothing. |
| `Scenarios.CompletionReportsLatestIndex` | Source/SwipePager.swift:253-255 | Taps on 3 then 1, then the first completion: the delegate is told 1. |
| `Scenarios.ReloadDrift` | Source/SwipePager.swift:147-197 | After a tap to page 3 a reload shows page 0 while `currentIndex` stays 3; a tap on 3 then requests nothing and a tap on 1 requests Reverse. |
| `Scenarios.SelectLeavesIndex` | Source/SwipePager.swift:199-207 | Selecting page 2 lights menu 2 but leaves `currentIndex` at 0 and notifies nobody; a tap on menu 2 then requests page 2 again, Forward. |

## Left out

- Frame and scroll geometry: menu frames at x = width * index, the strip's content size, the centring rectangle and `scrollRectToVisible`, `layoutSubviews`, the label frame set when a tab's frame changes, and the menu size from `sizeForMenu`; these are floating-point UIKit layout.
- `UIPageViewController` itself: its animations and when it calls back. A transition is the recorded request `lastTransition`; its completion and the swipe callbacks are explicit method calls.
- Gesture recognisers and `addSubview`: tabs from earlier reloads stay in the strip with their recognisers in the app (and the recognisers accumulate); the model has only the current strip, and `DidTapMenu` takes the tapped view, whichever it is.
- `menuScrollViewReloadData` and `moveMenuScrollViewToCurrentIndex` have no member of their own: without the menu size and the scroll rectangle, all that remains of them is the call to `LayoutMenuScrollView` (from `ReloadData`) and the call to `MenuHighlight`.
- The `swipeEnabled` loop that disables the page view controller's inner scroll views; it reaches into UIKit subviews.
- `initializeView`, `transitionStyle`, `menuPosition`, `init(coder:)` and the label's clear background and centred alignment: UIKit wiring only.
- Weak references: the delegate is always present (every notification is logged), the completion's weak `self` is assumed alive, and a gesture always has a view.
- Pager.SwipePager.ReloadData: the data source is queried once; the app queries `menuViews` and `viewControllers` twice per reload, and a data source that answers differently each time is not modelled.
- Pager.SwipePager.ReloadData: requires the data source's menus to be distinct objects; a menu object listed twice would be restyled twice by the highlight loop and is not modelled.
- Pager.SwipePager.ReloadData: requires at most `Int.max` pages (`Countable`), the bound Swift's `Int` count already imposes.
