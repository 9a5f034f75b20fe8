# TabLayoutMediator2 in Dafny

TabLayoutMediator2 links an Android tab strip (TabLayout) with a scrolling list (RecyclerView). Each tab stands for a group of list item view types, and its tag holds the `[start, end]` pair its configuration strategy returned.

- **List to tabs.** While the user scrolls the list, a scroll listener reads the view type of the item at an offset line. It then moves the tab selection to a matching tab.
- **Tabs to list.** Tapping a tab scrolls the list to the first item of the tab's start type. A target below the visible window gets a coarse jump and a posted retry. An optional app bar is expanded for item 0 and collapsed otherwise.
- **Data changes.** An adapter observer rebuilds the tabs on every data change.

The model replaces the Android widgets with an abstract world (module `Widgets`):
- an `Adapter` class holding the items' view types and its registered observers;
- a `RecyclerView` class holding a layout snapshot, its attached child views, a log of list commands and its registered scroll listeners;
- a `TabLayout` class holding the tabs, the strip's own selection, a log of `setScrollPosition` commands and its registered tab listeners;
- an `AppBarLayout` class holding a log of `setExpanded` commands.

The layout snapshot (`LayoutManager`) is one of three kinds:
- `Linear`: the first and last visible positions, the item count, and the bounds of each laid-out item;
- `Staggered`: the per-span first and last positions, the item count, and the item bounds;
- `Other`: any other layout manager, or none at all.

An exception the source throws becomes a `Fail` outcome. The partial state changes made before the throw are kept.

Modules:
- `RecyclerViewExtensions`: the three list extension functions.
  - `findFirstVisibleItemPosition` is a method with its search loop, proved against the recursive function `FirstVisibleIndex`.
  - `findLastVisibleItemPosition` is a function.
  - `scrollToPosition` is a method that appends to the list's log.
- `TabSync`: the index logic the mediator's loops compute, as recursive functions with lemmas that characterise them:
  - tab matching;
  - the two animation flags;
  - the scroll listener's scan (first changed match, then break);
  - the refresh sweep (no break, so the last match wins);
  - the tab-tap item search.
- `TabLayoutMediator`: the classes of the source.
  - `TabLayoutOnScrollListener` has its four mutable fields and its two callbacks.
  - `RecyclerViewOnTabSelectedListener` has the item search.
  - `RecyclerViewAdapterObserver` is a registration marker.
  - `TabLayoutMediator2` has `attach`, `detach`, populate, refresh and `moveRecycleViewToPosition`. The tab-selected and data-observer callbacks are mediator methods (`HandleTabTap`, `OnAdapterDataChanged`) because they only call back into it. A posted retry (`RunPostedRetry`) is also a mediator method.
- `Demo`: the no-offset demo screen's items and tabs, with lemmas and scenario methods for what attach, detach, a tap on a tab, a posted retry and a data change do with them.

Points where the code's behaviour is easy to misread; the model follows the code:
- **Tab matching.** A tab matches a view type only when the type equals one of the two stored tag values (`IntArray.contains`). A type strictly between them does not match.
- **Refresh vs. scroll scan.** `refreshCurrentItemTabPosition` has no `break`, so the highest-index matching tab wins. `onScrolled` takes the lowest-index matching tab that differs from the current selection. So two overlapping matching tabs alternate on successive scroll updates instead of "first match wins".
- **What detach leaves behind.** `detach` does not clear `tabClickScroll` and does not cancel posted retries. It keeps the scroll listener reference. Without a prior attach it throws (`onTabSelectedListener!!`) rather than being a no-op.
- **Throws outside attach.** The code throws in more places than attach's two preconditions:
  - on an empty tab tag;
  - at a missing child view;
  - on an out-of-range view type lookup.
- **The coarse jump.** For a target below the visible window, the one-argument `recyclerView.scrollToPosition(target)` is RecyclerView's own member method, not the offset-aware extension: a Kotlin member wins over an extension. The model records it as one command, `MemberScrollToPosition`. Its internal `stopScroll` belongs to the widget and is not logged separately. Unlike the extension, it scrolls only far enough to show the item and does not align it at the offset.

## Model

| member | source | states |
|---|---|---|
| RecyclerViewExtensions.ScanStraddleIsLowest | tablayoutmediator2/src/main/java/io/kailuzhang/github/tablayoutmediator2/RecyclerViewExtensions.kt:19-26 | the forward scan yields the lowest index from its start below the item count whose laid-out view has top ≤ offset ≤ bottom, skipping indices without a view, and nothing exactly when no index qualifies |
| RecyclerViewExtensions.FirstVisibleIndexSpec | tablayoutmediator2/src/main/java/io/kailuzhang/github/tablayoutmediator2/RecyclerViewExtensions.kt:11-51 | 0 for a layout neither linear nor staggered; with offset 0 the native first position (the first span's value or 0 for staggered); otherwise the lowest straddling index, or the native first when none; never below the native first |
| RecyclerViewExtensions.FindFirstVisibleItemPosition | tablayoutmediator2/src/main/java/io/kailuzhang/github/tablayoutmediator2/RecyclerViewExtensions.kt:11-51 | the search loop with its early return computes exactly the specified first visible index |
| RecyclerViewExtensions.FindLastVisibleItemPosition | tablayoutmediator2/src/main/java/io/kailuzhang/github/tablayoutmediator2/RecyclerViewExtensions.kt:53-65 | native last for linear, the first span's last position or 0 for staggered, 0 otherwise |
| RecyclerViewExtensions.ScrollToPositionCommands | tablayoutmediator2/src/main/java/io/kailuzhang/github/tablayoutmediator2/RecyclerViewExtensions.kt:67-83 | no command at all (not even stopScroll) exactly for a null or negative position; otherwise stopScroll first, followed by scroll-with-offset exactly for linear and staggered layouts |
| RecyclerViewExtensions.ScrollToPosition | tablayoutmediator2/src/main/java/io/kailuzhang/github/tablayoutmediator2/RecyclerViewExtensions.kt:67-83 | the list's log grows by exactly those commands and nothing else changes |
| TabSync.PairTagMatchesEndpointsOnly | tablayoutmediator2/src/main/java/io/kailuzhang/github/tablayoutmediator2/TabLayoutMediator2.kt:136-137 | a `[start, end]` tag matches a type iff the type is start or end; a type strictly between them does not match |
| TabSync.UpdateFlagsSpec | tablayoutmediator2/src/main/java/io/kailuzhang/github/tablayoutmediator2/TabLayoutMediator2.kt:184-193 | updateText is false iff settling not after a drag; updateIndicator is false iff settling after idle |
| TabSync.NextChangedMatchIsLowest | tablayoutmediator2/src/main/java/io/kailuzhang/github/tablayoutmediator2/TabLayoutMediator2.kt:175-205 | the scroll scan yields the lowest matching tab that differs from the selection, and nothing iff every matching tab is the selection |
| TabSync.OverlappingTabsAlternate | tablayoutmediator2/src/main/java/io/kailuzhang/github/tablayoutmediator2/TabLayoutMediator2.kt:194-203 | with two matching tabs 0 and 1, the scan picks 1 when 0 is selected and 0 when 1 is selected |
| TabSync.RefreshSweepSelectsLastMatch | tablayoutmediator2/src/main/java/io/kailuzhang/github/tablayoutmediator2/TabLayoutMediator2.kt:134-147 | the refresh ends on the highest-index matching tab, or leaves the selection when none matches; every command selects a matching tab with both flags set, the last one selects the final tab, and none is issued iff every match is already selected |
| TabSync.RefreshSweepStable | tablayoutmediator2/src/main/java/io/kailuzhang/github/tablayoutmediator2/TabLayoutMediator2.kt:129-147 | a second refresh leaves the selection where the first put it |
| TabSync.FirstIndexOfIsLowest | tablayoutmediator2/src/main/java/io/kailuzhang/github/tablayoutmediator2/TabLayoutMediator2.kt:241-246 | the item search yields the lowest index whose view type equals the given type, and nothing iff no item has it |
| TabLayoutMediator.InitialSyncSelectsLastMatch | tablayoutmediator2/src/main/java/io/kailuzhang/github/tablayoutmediator2/TabLayoutMediator2.kt:89-92 | after attach's refreshes the selection is -1 without an anchored item or without a matching tab, else the highest-index matching tab; an out-of-range lookup fails |
| TabLayoutMediator.PopulatedTabs | tablayoutmediator2/src/main/java/io/kailuzhang/github/tablayoutmediator2/TabLayoutMediator2.kt:116-120 | exactly max(tabCount, 0) tabs, tab i tagged with the strategy's result for i |
| TabLayoutMediator.PlanMoveCases | tablayoutmediator2/src/main/java/io/kailuzhang/github/tablayoutmediator2/TabLayoutMediator2.kt:253-272 | target ≤ first: stopScroll and scroll-with-offset; first < target ≤ last: scroll-by bringing the child's top onto the offset line, or a missing child; beyond last: the member jump, and the retry exactly in that case |
| TabLayoutMediator.TabLayoutOnScrollListener.constructor | tablayoutmediator2/src/main/java/io/kailuzhang/github/tablayoutmediator2/TabLayoutMediator2.kt:150-163 | both scroll states idle, not tab-driven, selection -1 |
| TabLayoutMediator.TabLayoutOnScrollListener.OnScrolled | tablayoutmediator2/src/main/java/io/kailuzhang/github/tablayoutmediator2/TabLayoutMediator2.kt:165-206 | silent while tab-driven; otherwise queries offset 0 when dy is 0 and the offset otherwise, and selects the first changed matching tab with the flags from the two states, or changes nothing; never touches the list |
| TabLayoutMediator.TabLayoutOnScrollListener.OnScrollStateChanged | tablayoutmediator2/src/main/java/io/kailuzhang/github/tablayoutmediator2/TabLayoutMediator2.kt:208-215 | previous becomes the old current, current the new state; tabClickScroll is cleared exactly on dragging, kept otherwise |
| TabLayoutMediator.RecyclerViewOnTabSelectedListener.FindTarget | tablayoutmediator2/src/main/java/io/kailuzhang/github/tablayoutmediator2/TabLayoutMediator2.kt:237-247 | an empty tag fails; else the first item whose type is the tag's first value, or no item |
| TabLayoutMediator.TabLayoutMediator2.constructor | tablayoutmediator2/src/main/java/io/kailuzhang/github/tablayoutmediator2/TabLayoutMediator2.kt:26-39 | a detached mediator with no adapter, listeners or pending retry |
| TabLayoutMediator.TabLayoutMediator2.Attach | tablayoutmediator2/src/main/java/io/kailuzhang/github/tablayoutmediator2/TabLayoutMediator2.kt:65-93 | fails and changes nothing when attached or when the list has no adapter; otherwise attached with fresh registered listeners (the observer only with autoRefresh), the populated tabs, and the selection and commands of the two refreshes |
| TabLayoutMediator.TabLayoutMediator2.InstallListeners | tablayoutmediator2/src/main/java/io/kailuzhang/github/tablayoutmediator2/TabLayoutMediator2.kt:69-88 | a fresh idle scroll listener added to the list, a fresh tab listener added to the strip, and with autoRefresh a fresh observer added to the adapter |
| TabLayoutMediator.TabLayoutMediator2.Detach | tablayoutmediator2/src/main/java/io/kailuzhang/github/tablayoutmediator2/TabLayoutMediator2.kt:100-110 | fails and changes nothing when not attached; otherwise unregisters exactly the installed listeners and observer, drops the adapter and is detached, so attach can succeed again |
| TabLayoutMediator.TabLayoutMediator2.PopulateTabsFromPagerAdapter | tablayoutmediator2/src/main/java/io/kailuzhang/github/tablayoutmediator2/TabLayoutMediator2.kt:112-126 | clears the tabs; with an adapter, exactly tabCount unselected tabs tagged by the strategy (the same list on every run); refreshes exactly when the adapter has items |
| TabLayoutMediator.TabLayoutMediator2.RefreshCurrentItemTabPosition | tablayoutmediator2/src/main/java/io/kailuzhang/github/tablayoutmediator2/TabLayoutMediator2.kt:129-148 | nothing for a negative anchored position; otherwise the selection and the commands of the refresh sweep from the current selection |
| TabLayoutMediator.TabLayoutMediator2.MoveRecycleViewToPosition | tablayoutmediator2/src/main/java/io/kailuzhang/github/tablayoutmediator2/TabLayoutMediator2.kt:250-279 | sets tabClickScroll and the tab as selection, issues the planned commands, posts one retry for a target beyond the window, fails at a missing child, and expands the app bar iff the target is 0, collapsing it otherwise |
| TabLayoutMediator.TabLayoutMediator2.HandleTabTap | tablayoutmediator2/src/main/java/io/kailuzhang/github/tablayoutmediator2/TabLayoutMediator2.kt:226-235 | a tap or re-tap moves to the resolved item; an empty tag fails and a tag with no item does nothing, changing nothing |
| TabLayoutMediator.TabLayoutMediator2.RunPostedRetry | tablayoutmediator2/src/main/java/io/kailuzhang/github/tablayoutmediator2/TabLayoutMediator2.kt:268-270 | the oldest posted retry is removed and the move is run again with its arguments |
| TabLayoutMediator.TabLayoutMediator2.OnAdapterDataChanged | tablayoutmediator2/src/main/java/io/kailuzhang/github/tablayoutmediator2/TabLayoutMediator2.kt:281-305 | every one of the six data-change callbacks repopulates, with populate's whole effect |
| Demo.FeedViewTypes | app/src/main/java/io/kailuzhang/github/demo/NoOffsetActivity.kt:62-75 | 28 items: types 0..7, then twenty OTHER items |
| Demo.FeedTabs | app/src/main/java/io/kailuzhang/github/demo/NoOffsetActivity.kt:77-98 | the tags (0,2), (3,5), (6,7), (100,100) |
| Demo.FeedTapTargets | app/src/main/java/io/kailuzhang/github/demo/NoOffsetActivity.kt:62-98 | tapping OTHER resolves to item 8, Gallery to item 0, D to item 3 |
| Demo.FeedAnchors | app/src/main/java/io/kailuzhang/github/demo/NoOffsetActivity.kt:77-98 | anchored type F selects tab D; type E, inside D's range, matches no tab and moves nothing |
| Demo.FeedInitialSelection | app/src/main/java/io/kailuzhang/github/demo/NoOffsetActivity.kt:30-43 | with item A on top, attach's first refresh selects Gallery with one command and the second issues none |
| Demo.FeedChildren | app/src/main/java/io/kailuzhang/github/demo/NoOffsetActivity.kt:62-68 | six stacked child views for items A..F, item D's spanning 400..600 |
| Demo.FeedScreen | app/src/main/java/io/kailuzhang/github/demo/NoOffsetActivity.kt:25-43 | the demo screen's detached mediator over its list, strip and app bar, with items 0..5 visible and a child view for each |

## Left out

- Rendering, animation and layout passes of the widgets: commands are recorded in logs. The list does not move in response to them, so whether repeated retries converge on the target is not modelled. A scenario sets the next layout snapshot by hand.
- The `0f` position offset of `setScrollPosition` and the tab titles set by the strategy: neither affects the core's decisions.
- The three-argument `setScrollPosition` in the refresh is recorded with `updateIndicator` true, which is the widget's default for that overload.
- The `WeakReference` to the tab strip is a plain reference. The strip is never collected here, so the `?: 0` fallback for a missing strip is not modelled.
- `recyclerView.post` is a queue of pending retries on the mediator, replayed oldest first by `RunPostedRetry`. There is no event loop and no thread.
- Tags that are not an `IntArray` (`as? IntArray` in the scroll listener) do not arise: every tag is the strategy's integer sequence.
- Kotlin `Int` is unbounded here. The core only compares indices and subtracts child tops, so overflow is not considered.
- The configuration strategy is a pure function of the tab index. Its side effects on the tab (text, styling) are left out.
- The adapter's `getItemViewType` is the demo adapter's: the stored type in range, an IndexOutOfBounds failure outside it.
- The demo activities in MainActivity.kt and WithOffsetActivity.kt are not modelled: they are screen glue and float alpha arithmetic. FeedAdapter.kt and GalleryAdapter.kt are view-holder binding. UIUtils.kt is density conversion. Item.kt is a record whose only modelled field is the view type. NoOffsetActivity.kt's item and tab lists appear only as the `Demo` fixture.
- `TabLayoutMediator.TabLayoutMediator2.HandleTabTap`: this requires the tab-selected listener to be installed and the tapped position to be a tab of the strip. Those two conditions are how the strip calls the listener, not checks the source makes.
- `TabLayoutMediator.TabLayoutMediator2.RefreshCurrentItemTabPosition`: this requires the scroll listener to exist. The source's `onScrollListener?.` path for a missing listener is not modelled: the refresh runs only with an adapter captured, and by then attach has installed the listener.
