/**
 * TabLayoutMediator2: links a tab strip with a scrolling list. Scrolling the
 * list moves the tab selection (TabLayoutOnScrollListener), tapping a tab
 * scrolls the list to the tab's first item (RecyclerViewOnTabSelectedListener
 * and moveRecycleViewToPosition), and a data change rebuilds the tabs
 * (RecyclerViewAdapterObserver).
 *
 * The tab-selected listener and the adapter observer only call back into the
 * mediator, so their callbacks are mediator methods here (HandleTabTap and
 * OnAdapterDataChanged); the listener objects themselves exist so that
 * registration and the null checks of attach and detach are modelled.
 */
module TabLayoutMediator {
  import opened Widgets
  import opened RecyclerViewExtensions
  import opened TabSync

  /** What the selection refresh reads at the offset line. */
  datatype Anchor = NoAnchor | Anchored(viewType: int) | AnchorFault

  /** The item the refresh reads: none for a negative position, else its view type. */
  function RefreshAnchor(rv: RecyclerView, offset: int): Anchor
    reads rv, rv.adapter
  {
    var position := FirstVisibleIndex(rv.layout, offset);
    if position < 0 then NoAnchor
    else match rv.ItemViewType(position)
      case Found(viewType) => Anchored(viewType)
      case OutOfBounds => AnchorFault
  }

  /** The outcome of one selection refresh. */
  datatype Refresh = Refresh(outcome: Outcome, selected: int, commands: seq<TabCommand>)

  function Refreshed(tabs: seq<Tab>, anchor: Anchor, selected: int): Refresh {
    match anchor
    case NoAnchor => Refresh(Pass, selected, [])
    case AnchorFault => Refresh(Fail(ViewTypeIndexOutOfBounds), selected, [])
    case Anchored(viewType) =>
      var sweep := RefreshSweep(tabs, viewType, selected, 0);
      Refresh(Pass, sweep.selected, sweep.commands)
  }

  /**
   * The two refreshes attach runs over a fresh listener (selection -1): the
   * one inside populate, only when the adapter has items, then its own; an
   * exception in the first ends attach.
   */
  function InitialSync(tabs: seq<Tab>, anchor: Anchor, hasItems: bool): Refresh {
    var first := if hasItems then Refreshed(tabs, anchor, -1) else Refresh(Pass, -1, []);
    if first.outcome.Fail? then first
    else
      var second := Refreshed(tabs, anchor, first.selected);
      Refresh(second.outcome, second.selected, first.commands + second.commands)
  }

  /**
   * After attach the selection is the highest-index tab matching the
   * anchored view type, or still -1 when no tab matches; without an anchored
   * item nothing is selected and nothing is issued.
   */
  lemma InitialSyncSelectsLastMatch(tabs: seq<Tab>, anchor: Anchor, hasItems: bool)
    ensures anchor.NoAnchor? ==> InitialSync(tabs, anchor, hasItems) == Refresh(Pass, -1, [])
    ensures anchor.AnchorFault? ==> InitialSync(tabs, anchor, hasItems).outcome == Fail(ViewTypeIndexOutOfBounds)
    ensures anchor.Anchored? && (forall i :: 0 <= i < |tabs| ==> !Matches(tabs[i].tag, anchor.viewType)) ==>
              InitialSync(tabs, anchor, hasItems) == Refresh(Pass, -1, [])
    ensures anchor.Anchored? && (exists i :: 0 <= i < |tabs| && Matches(tabs[i].tag, anchor.viewType)) ==>
              var s := InitialSync(tabs, anchor, hasItems).selected;
              InitialSync(tabs, anchor, hasItems).outcome == Pass &&
              0 <= s < |tabs| && Matches(tabs[s].tag, anchor.viewType) &&
              forall j :: s < j < |tabs| ==> !Matches(tabs[j].tag, anchor.viewType)
  {
    if anchor.Anchored? {
      var once := RefreshSweep(tabs, anchor.viewType, -1, 0);
      RefreshSweepSelectsLastMatch(tabs, anchor.viewType, -1, 0);
      RefreshSweepSelectsLastMatch(tabs, anchor.viewType, once.selected, 0);
      RefreshSweepStable(tabs, anchor.viewType, -1);
    }
  }

  /** The tabs populate creates: one per index below tabCount, tagged by the strategy. */
  function PopulatedTabs(tabCount: int, strategy: int -> seq<int>): (tabs: seq<Tab>)
    ensures |tabs| == (if tabCount > 0 then tabCount else 0)
    ensures forall i :: 0 <= i < |tabs| ==> tabs[i].tag == strategy(i)
  {
    seq(if tabCount > 0 then tabCount else 0, i => Tab(strategy(i)))
  }

  /** The three-way decision of moveRecycleViewToPosition, as the commands and retry it yields. */
  datatype MovePlan = MovePlan(commands: seq<ListCommand>, retry: bool, missingChild: bool)

  function PlanMove(lm: LayoutManager, children: seq<Bounds>, target: int, offset: int): MovePlan {
    var first := FirstVisibleIndex(lm, 0);
    var last := FindLastVisibleItemPosition(lm);
    if target <= first then MovePlan(ScrollToPositionCommands(lm, Some(target), offset), false, false)
    else if target <= last then
      if target - first < |children| then MovePlan([ScrollBy(0, children[target - first].top - offset)], false, false)
      else MovePlan([], false, true)
    else MovePlan([MemberScrollToPosition(target)], true, false)
  }

  /**
   * A target at or above the first visible item is jumped to with the offset;
   * one inside the visible window is scrolled by the distance from its top to
   * the offset line, which brings that top onto the line; one below the last
   * visible item gets a coarse jump and a retry, and that is the only case
   * with a retry.
   */
  lemma PlanMoveCases(lm: LayoutManager, children: seq<Bounds>, target: int, offset: int)
    ensures var first, last, plan := FirstVisibleIndex(lm, 0), FindLastVisibleItemPosition(lm), PlanMove(lm, children, target, offset);
            (plan.retry <==> first < target && last < target) &&
            (plan.missingChild <==> first < target <= last && target - first >= |children|) &&
            (target <= first && target >= 0 && !lm.Other? ==>
               plan.commands == [StopScroll, ScrollToPositionWithOffset(target, offset)]) &&
            (first < target <= last && !plan.missingChild ==>
               plan.commands == [ScrollBy(0, children[target - first].top - offset)] &&
               children[target - first].top - plan.commands[0].dy == offset) &&
            (plan.retry ==> plan.commands == [MemberScrollToPosition(target)])
  {
  }

  /** The target of a tab tap: nothing for an empty tag, else the first item of the tag's first value. */
  datatype TapTarget = Target(index: nat) | NoItem | TagEmpty

  function TapTargetOf(tag: seq<int>, viewTypes: seq<int>): TapTarget {
    if tag == [] then TagEmpty
    else match FirstIndexOf(viewTypes, tag[0], 0)
      case Some(index) => Target(index)
      case None => NoItem
  }

  /** The items the tab-selected listener scans: none without an adapter. */
  function ItemTypes(rv: RecyclerView): seq<int>
    reads rv, rv.adapter
  {
    if rv.adapter == null then [] else rv.adapter.viewTypes
  }

  /** The six AdapterDataObserver callbacks; every one of them repopulates. */
  datatype AdapterEvent =
    | Changed
    | ItemRangeChanged(positionStart: int, itemCount: int)
    | ItemRangeChangedWithPayload(positionStart: int, itemCount: int)
    | ItemRangeInserted(positionStart: int, itemCount: int)
    | ItemRangeRemoved(positionStart: int, itemCount: int)
    | ItemRangeMoved(fromPosition: int, toPosition: int, itemCount: int)

  /** A call of moveRecycleViewToPosition posted to the list's message queue. */
  datatype Retry = Retry(target: int, tabPosition: int)

  /** Follows list scrolling and moves the tab selection. */
  class TabLayoutOnScrollListener {
    const tabLayout: TabLayout
    const offset: int
    var previousScrollState: int
    var scrollState: int
    /** Set while a tab tap drives the list. */
    var tabClickScroll: bool
    /** The selection as this mediator last set it; setScrollPosition does not change the strip's own. */
    var selectedTabPosition: int

    constructor (tabLayout: TabLayout, offset: int)
      ensures this.tabLayout == tabLayout && this.offset == offset
      ensures previousScrollState == SCROLL_STATE_IDLE && scrollState == SCROLL_STATE_IDLE
      ensures !tabClickScroll && selectedTabPosition == -1
    {
      this.tabLayout := tabLayout;
      this.offset := offset;
      previousScrollState := SCROLL_STATE_IDLE;
      scrollState := SCROLL_STATE_IDLE;
      tabClickScroll := false;
      selectedTabPosition := -1;
    }

    /**
     * onScrolled: silent while a tab tap drives the list; otherwise reads the
     * view type at the offset line (the top when dy is 0) and selects the
     * first matching tab other than the current one, if any. It never
     * issues a command to the list.
     */
    method OnScrolled(recyclerView: RecyclerView, dx: int, dy: int) returns (r: Outcome)
      modifies this`selectedTabPosition, tabLayout`log
      ensures old(tabClickScroll) ==>
                r == Pass && selectedTabPosition == old(selectedTabPosition) && tabLayout.log == old(tabLayout.log)
      ensures !old(tabClickScroll) ==>
                var lookup := recyclerView.ItemViewType(FirstVisibleIndex(recyclerView.layout, if dy == 0 then 0 else offset));
                if lookup.OutOfBounds? then
                  r == Fail(ViewTypeIndexOutOfBounds) &&
                  selectedTabPosition == old(selectedTabPosition) && tabLayout.log == old(tabLayout.log)
                else
                  r == Pass &&
                  match NextChangedMatch(tabLayout.tabs, lookup.viewType, old(selectedTabPosition), 0)
                  case None =>
                    selectedTabPosition == old(selectedTabPosition) && tabLayout.log == old(tabLayout.log)
                  case Some(i) =>
                    selectedTabPosition == i &&
                    tabLayout.log == old(tabLayout.log) +
                      [SetScrollPosition(i, UpdateText(scrollState, previousScrollState),
                                            UpdateIndicator(scrollState, previousScrollState))]
    {
      if tabClickScroll {
        return Pass;
      }
      var firstVisibleItem := FindFirstVisibleItemPosition(recyclerView.layout, if dy == 0 then 0 else offset);
      var lookup := recyclerView.ItemViewType(firstVisibleItem);
      if lookup.OutOfBounds? {
        return Fail(ViewTypeIndexOutOfBounds);
      }
      var viewType := lookup.viewType;
      var tabCount := |tabLayout.tabs|;
      var i := 0;
      while i < tabCount
        invariant 0 <= i <= tabCount
        invariant selectedTabPosition == old(selectedTabPosition) && tabLayout.log == old(tabLayout.log)
        invariant NextChangedMatch(tabLayout.tabs, viewType, selectedTabPosition, 0) ==
                  NextChangedMatch(tabLayout.tabs, viewType, selectedTabPosition, i)
      {
        var viewTypeArray := tabLayout.tabs[i].tag;
        if Matches(viewTypeArray, viewType) {
          var updateText := UpdateText(scrollState, previousScrollState);
          var updateIndicator := UpdateIndicator(scrollState, previousScrollState);
          if selectedTabPosition != i {
            selectedTabPosition := i;
            tabLayout.log := tabLayout.log + [SetScrollPosition(i, updateText, updateIndicator)];
            break;
          }
        }
        i := i + 1;
      }
      r := Pass;
    }

    /**
     * onScrollStateChanged: shifts the state pair, and a drag hands control
     * back to scrolling by clearing tabClickScroll.
     */
    method OnScrollStateChanged(recyclerView: RecyclerView, newState: int)
      modifies this`previousScrollState, this`scrollState, this`tabClickScroll
      ensures previousScrollState == old(scrollState) && scrollState == newState
      ensures tabClickScroll == (old(tabClickScroll) && newState != SCROLL_STATE_DRAGGING)
    {
      previousScrollState := scrollState;
      scrollState := newState;
      if newState == SCROLL_STATE_DRAGGING {
        tabClickScroll := false;
      }
    }
  }

  /** Resolves a tapped tab to the list item it stands for. */
  class RecyclerViewOnTabSelectedListener {
    const recyclerView: RecyclerView

    constructor (recyclerView: RecyclerView)
      ensures this.recyclerView == recyclerView
    {
      this.recyclerView := recyclerView;
    }

    /**
     * The scan of moveRecyclerViewToPosition(tab): the first item whose view
     * type equals the tag's first value; an empty tag throws.
     */
    method FindTarget(tab: Tab) returns (r: TapTarget)
      ensures r == TapTargetOf(tab.tag, ItemTypes(recyclerView))
    {
      if tab.tag == [] {
        return TagEmpty;
      }
      var viewType := tab.tag[0];
      var adapter := recyclerView.adapter;
      var itemCount := if adapter == null then 0 else |adapter.viewTypes|;
      var i := 0;
      while i < itemCount
        invariant 0 <= i <= itemCount
        invariant adapter != null ==> FirstIndexOf(adapter.viewTypes, viewType, 0) == FirstIndexOf(adapter.viewTypes, viewType, i)
      {
        if adapter.viewTypes[i] == viewType {
          return Target(i);
        }
        i := i + 1;
      }
      return NoItem;
    }
  }

  /** Marks the mediator's registration as an observer of the adapter. */
  class RecyclerViewAdapterObserver {
    constructor ()
    {
    }
  }

  class TabLayoutMediator2 {
    const tabLayout: TabLayout
    const recyclerView: RecyclerView
    const tabCount: int
    const appBarLayout: AppBarLayout?
    const offset: int
    const autoRefresh: bool
    /** onConfigureTab: the tag stored in tab i. */
    const tabConfigurationStrategy: int -> seq<int>

    var adapter: Adapter?
    var attached: bool
    var onScrollListener: TabLayoutOnScrollListener?
    var onTabSelectedListener: RecyclerViewOnTabSelectedListener?
    var recyclerViewAdapterObserver: RecyclerViewAdapterObserver?
    /** Runnables posted with recyclerView.post, oldest first. */
    var posted: seq<Retry>

    /**
     * Attached exactly while an adapter is captured and the tab listener is
     * installed; the observer exists exactly while attached with autoRefresh;
     * the scroll listener, once created, stays (detach does not drop it).
     */
    ghost predicate Valid()
      reads this
    {
      && (attached <==> adapter != null)
      && (attached <==> onTabSelectedListener != null)
      && (recyclerViewAdapterObserver != null <==> attached && autoRefresh)
      && (attached ==> onScrollListener != null)
      && (onScrollListener != null ==> onScrollListener.tabLayout == tabLayout && onScrollListener.offset == offset)
      && (onTabSelectedListener != null ==> onTabSelectedListener.recyclerView == recyclerView)
    }

    constructor (tabLayout: TabLayout, recyclerView: RecyclerView, tabCount: int, appBarLayout: AppBarLayout?,
                 offset: int, autoRefresh: bool, tabConfigurationStrategy: int -> seq<int>)
      ensures Valid()
      ensures this.tabLayout == tabLayout && this.recyclerView == recyclerView && this.tabCount == tabCount
      ensures this.appBarLayout == appBarLayout && this.offset == offset && this.autoRefresh == autoRefresh
      ensures this.tabConfigurationStrategy == tabConfigurationStrategy
      ensures !attached && adapter == null && onScrollListener == null && onTabSelectedListener == null
      ensures recyclerViewAdapterObserver == null && posted == []
    {
      this.tabLayout := tabLayout;
      this.recyclerView := recyclerView;
      this.tabCount := tabCount;
      this.appBarLayout := appBarLayout;
      this.offset := offset;
      this.autoRefresh := autoRefresh;
      this.tabConfigurationStrategy := tabConfigurationStrategy;
      adapter := null;
      attached := false;
      onScrollListener := null;
      onTabSelectedListener := null;
      recyclerViewAdapterObserver := null;
      posted := [];
    }

    /**
     * attach: fails when already attached or when the list has no adapter,
     * changing nothing. Otherwise captures the adapter, installs a fresh
     * scroll listener, the tab listener and (with autoRefresh) the observer,
     * populates the tabs and refreshes the selection.
     */
    method Attach() returns (r: Outcome)
      requires Valid()
      modifies this, recyclerView`scrollListeners, recyclerView.adapter
      modifies tabLayout`tabs, tabLayout`selectedTab, tabLayout`log, tabLayout`tabSelectedListeners
      ensures Valid()
      ensures recyclerView.adapter == old(recyclerView.adapter)
      ensures recyclerView.adapter != null ==> recyclerView.adapter.viewTypes == old(recyclerView.adapter.viewTypes)
      ensures old(attached) ==>
                r == Fail(AlreadyAttached) && unchanged(this, tabLayout, recyclerView) &&
                (recyclerView.adapter != null ==> unchanged(recyclerView.adapter))
      ensures !old(attached) && recyclerView.adapter == null ==>
                r == Fail(AttachedBeforeAdapter) && unchanged(this, tabLayout, recyclerView)
      ensures !old(attached) && old(recyclerView.adapter) != null ==>
                && attached && adapter == recyclerView.adapter && posted == old(posted)
                && fresh(onScrollListener) && fresh(onTabSelectedListener)
                && recyclerView.scrollListeners == old(recyclerView.scrollListeners) + {onScrollListener}
                && tabLayout.tabSelectedListeners == old(tabLayout.tabSelectedListeners) + {onTabSelectedListener}
                && (autoRefresh ==>
                      fresh(recyclerViewAdapterObserver) &&
                      adapter.observers == old(recyclerView.adapter.observers) + {recyclerViewAdapterObserver})
                && (!autoRefresh ==> adapter.observers == old(recyclerView.adapter.observers))
                && tabLayout.tabs == PopulatedTabs(tabCount, tabConfigurationStrategy)
                && tabLayout.selectedTab == -1
                && onScrollListener.previousScrollState == SCROLL_STATE_IDLE
                && onScrollListener.scrollState == SCROLL_STATE_IDLE
                && !onScrollListener.tabClickScroll
                && var sync := InitialSync(tabLayout.tabs, RefreshAnchor(recyclerView, offset), |adapter.viewTypes| > 0);
                   r == sync.outcome && onScrollListener.selectedTabPosition == sync.selected &&
                   tabLayout.log == old(tabLayout.log) + sync.commands
    {
      if attached {
        return Fail(AlreadyAttached);
      }
      adapter := recyclerView.adapter;
      if adapter == null {
        return Fail(AttachedBeforeAdapter);
      }
      attached := true;
      InstallListeners();
      r := PopulateTabsFromPagerAdapter();
      if r.Fail? {
        return;
      }
      r := RefreshCurrentItemTabPosition();
    }

    /**
     * The middle of attach, once the adapter is captured: a fresh scroll
     * listener on the list, a fresh tab-selected listener on the strip and,
     * with autoRefresh, a fresh observer on the adapter.
     */
    method InstallListeners()
      requires attached && adapter != null && onTabSelectedListener == null && recyclerViewAdapterObserver == null
      requires onScrollListener != null ==> onScrollListener.tabLayout == tabLayout && onScrollListener.offset == offset
      modifies this`onScrollListener, this`onTabSelectedListener, this`recyclerViewAdapterObserver
      modifies recyclerView`scrollListeners, tabLayout`tabSelectedListeners, adapter`observers
      ensures Valid()
      ensures fresh(onScrollListener) && fresh(onTabSelectedListener)
      ensures onScrollListener.previousScrollState == SCROLL_STATE_IDLE && onScrollListener.scrollState == SCROLL_STATE_IDLE
      ensures !onScrollListener.tabClickScroll && onScrollListener.selectedTabPosition == -1
      ensures recyclerView.scrollListeners == old(recyclerView.scrollListeners) + {onScrollListener}
      ensures tabLayout.tabSelectedListeners == old(tabLayout.tabSelectedListeners) + {onTabSelectedListener}
      ensures autoRefresh ==>
                fresh(recyclerViewAdapterObserver) &&
                adapter.observers == old(adapter.observers) + {recyclerViewAdapterObserver}
      ensures !autoRefresh ==> adapter.observers == old(adapter.observers)
    {
      var scrollListener := new TabLayoutOnScrollListener(tabLayout, offset);
      onScrollListener := scrollListener;
      recyclerView.scrollListeners := recyclerView.scrollListeners + {scrollListener};

      var tabSelectedListener := new RecyclerViewOnTabSelectedListener(recyclerView);
      onTabSelectedListener := tabSelectedListener;
      tabLayout.tabSelectedListeners := tabLayout.tabSelectedListeners + {tabSelectedListener};

      if autoRefresh {
        var observer := new RecyclerViewAdapterObserver();
        recyclerViewAdapterObserver := observer;
        adapter.observers := adapter.observers + {observer};
      }
    }

    /**
     * detach: throws when no tab listener is installed (never attached, or
     * already detached), changing nothing. Otherwise unregisters the observer,
     * the tab listener and the scroll listener and drops the adapter, so a
     * later attach succeeds. The scroll listener's state and the posted
     * retries are kept.
     */
    method Detach() returns (r: Outcome)
      requires Valid()
      modifies this, recyclerView`scrollListeners, tabLayout`tabSelectedListeners, adapter
      ensures Valid()
      ensures old(adapter) != null ==> old(adapter).viewTypes == old(adapter.viewTypes)
      ensures !old(attached) ==>
                r == Fail(ListenerNotInstalled) && unchanged(this) &&
                recyclerView.scrollListeners == old(recyclerView.scrollListeners) &&
                tabLayout.tabSelectedListeners == old(tabLayout.tabSelectedListeners)
      ensures old(attached) ==>
                && r == Pass && !attached && adapter == null
                && onTabSelectedListener == null && recyclerViewAdapterObserver == null
                && onScrollListener == old(onScrollListener) && posted == old(posted)
                && recyclerView.scrollListeners == old(recyclerView.scrollListeners) - {old(onScrollListener)}
                && tabLayout.tabSelectedListeners == old(tabLayout.tabSelectedListeners) - {old(onTabSelectedListener)}
                && (autoRefresh ==>
                      old(adapter).observers == old(adapter.observers) - {old(recyclerViewAdapterObserver)})
                && (!autoRefresh ==> old(adapter).observers == old(adapter.observers))
    {
      if autoRefresh && adapter != null {
        var observer: object := recyclerViewAdapterObserver;
        adapter.observers := adapter.observers - {observer};
        recyclerViewAdapterObserver := null;
      }
      if onTabSelectedListener == null {
        return Fail(ListenerNotInstalled);
      }
      tabLayout.tabSelectedListeners := tabLayout.tabSelectedListeners - {onTabSelectedListener};
      var scrollListener: object := onScrollListener;
      recyclerView.scrollListeners := recyclerView.scrollListeners - {scrollListener};
      onTabSelectedListener := null;
      adapter := null;
      attached := false;
      r := Pass;
    }

    /** What populate leaves behind, shared by the adapter observer's callbacks. */
    twostate predicate Populated(r: Outcome)
      reads this, tabLayout, recyclerView, recyclerView.adapter, adapter, onScrollListener
    {
      && onScrollListener == old(onScrollListener)
      && tabLayout.tabs == (if adapter == null then [] else PopulatedTabs(tabCount, tabConfigurationStrategy))
      && tabLayout.selectedTab == -1
      && tabLayout.tabSelectedListeners == old(tabLayout.tabSelectedListeners)
      && (onScrollListener != null ==>
            && onScrollListener.previousScrollState == old(onScrollListener.previousScrollState)
            && onScrollListener.scrollState == old(onScrollListener.scrollState)
            && onScrollListener.tabClickScroll == old(onScrollListener.tabClickScroll))
      && if adapter != null && |adapter.viewTypes| > 0 then
           && onScrollListener != null
           && var refresh := Refreshed(tabLayout.tabs, RefreshAnchor(recyclerView, offset),
                                       old(onScrollListener.selectedTabPosition));
              r == refresh.outcome && onScrollListener.selectedTabPosition == refresh.selected &&
              tabLayout.log == old(tabLayout.log) + refresh.commands
         else
           && r == Pass && tabLayout.log == old(tabLayout.log)
           && (onScrollListener != null ==>
                 onScrollListener.selectedTabPosition == old(onScrollListener.selectedTabPosition))
    }

    /**
     * populateTabsFromPagerAdapter: removes every tab; with an adapter adds
     * tabCount unselected tabs in index order, tab i tagged by the strategy,
     * and refreshes the selection when the adapter has items.
     */
    method PopulateTabsFromPagerAdapter() returns (r: Outcome)
      requires Valid()
      modifies tabLayout`tabs, tabLayout`selectedTab, tabLayout`log, onScrollListener
      ensures Valid()
      ensures Populated(r)
    {
      tabLayout.tabs := [];
      tabLayout.selectedTab := -1;
      r := Pass;
      if adapter != null {
        var adapterCount := |adapter.viewTypes|;
        var i := 0;
        while i < tabCount
          invariant 0 <= i <= (if tabCount > 0 then tabCount else 0)
          invariant tabLayout.tabs == PopulatedTabs(i, tabConfigurationStrategy)
          invariant tabLayout.selectedTab == -1 && tabLayout.log == old(tabLayout.log)
          invariant onScrollListener != null ==>
                      && onScrollListener.previousScrollState == old(onScrollListener.previousScrollState)
                      && onScrollListener.scrollState == old(onScrollListener.scrollState)
                      && onScrollListener.tabClickScroll == old(onScrollListener.tabClickScroll)
                      && onScrollListener.selectedTabPosition == old(onScrollListener.selectedTabPosition)
        {
          tabLayout.tabs := tabLayout.tabs + [Tab(tabConfigurationStrategy(i))];
          i := i + 1;
        }
        if adapterCount > 0 {
          r := RefreshCurrentItemTabPosition();
        }
      }
    }

    /**
     * refreshCurrentItemTabPosition: nothing for a negative anchored position;
     * otherwise every matching tab that differs from the selection at that
     * moment is selected in turn (there is no break), so the last one wins.
     */
    method RefreshCurrentItemTabPosition() returns (r: Outcome)
      requires Valid() && onScrollListener != null
      modifies tabLayout`log, onScrollListener`selectedTabPosition
      ensures var refresh := Refreshed(tabLayout.tabs, RefreshAnchor(recyclerView, offset),
                                       old(onScrollListener.selectedTabPosition));
              r == refresh.outcome && onScrollListener.selectedTabPosition == refresh.selected &&
              tabLayout.log == old(tabLayout.log) + refresh.commands
    {
      var position := FindFirstVisibleItemPosition(recyclerView.layout, offset);
      if position < 0 {
        return Pass;
      }
      var lookup := recyclerView.ItemViewType(position);
      if lookup.OutOfBounds? {
        return Fail(ViewTypeIndexOutOfBounds);
      }
      var viewType := lookup.viewType;
      var count := |tabLayout.tabs|;
      var i := 0;
      ghost var issued: seq<TabCommand> := [];
      while i < count
        invariant 0 <= i <= count
        invariant tabLayout.log == old(tabLayout.log) + issued
        invariant var rest := RefreshSweep(tabLayout.tabs, viewType, onScrollListener.selectedTabPosition, i);
                  RefreshSweep(tabLayout.tabs, viewType, old(onScrollListener.selectedTabPosition), 0) ==
                  Sweep(rest.selected, issued + rest.commands)
      {
        var viewTypeArray := tabLayout.tabs[i].tag;
        if Matches(viewTypeArray, viewType) {
          if onScrollListener.selectedTabPosition != i {
            onScrollListener.selectedTabPosition := i;
            tabLayout.log := tabLayout.log + [SetScrollPosition(i, true, true)];
            issued := issued + [SetScrollPosition(i, true, true)];
          }
        }
        i := i + 1;
      }
      r := Pass;
    }

    /**
     * What moveRecycleViewToPosition(target, tabPosition) leaves behind, with
     * `queued` the posted runnables it started from: the scroll listener is
     * silenced and set to the tab, the list gets the planned commands, a retry
     * is posted for a target below the window, and the app bar is expanded
     * exactly when the target is the first item and collapsed otherwise.
     */
    twostate predicate Moved(target: int, tabPosition: int, r: Outcome, queued: seq<Retry>)
      reads this, recyclerView, appBarLayout, onScrollListener
    {
      var plan := PlanMove(recyclerView.layout, recyclerView.children, target, offset);
      && onScrollListener == old(onScrollListener)
      && (onScrollListener != null ==>
            && onScrollListener.tabClickScroll && onScrollListener.selectedTabPosition == tabPosition
            && onScrollListener.previousScrollState == old(onScrollListener.previousScrollState)
            && onScrollListener.scrollState == old(onScrollListener.scrollState))
      && (r == Pass <==> !plan.missingChild)
      && (r != Pass ==> r == Fail(NoChildAtIndex))
      && recyclerView.log == old(recyclerView.log) + plan.commands
      && posted == queued + (if plan.retry then [Retry(target, tabPosition)] else [])
      && (appBarLayout != null ==>
            appBarLayout.log == old(appBarLayout.log) + (if r == Pass then [SetExpanded(target == 0, false)] else []))
    }

    /** moveRecycleViewToPosition. */
    method MoveRecycleViewToPosition(target: int, tabPosition: int) returns (r: Outcome)
      modifies this`posted, recyclerView`log, appBarLayout, onScrollListener
      ensures Moved(target, tabPosition, r, old(posted))
    {
      if onScrollListener != null {
        onScrollListener.tabClickScroll := true;
        onScrollListener.selectedTabPosition := tabPosition;
      }
      var firstItem := FindFirstVisibleItemPosition(recyclerView.layout, 0);
      var lastItem := FindLastVisibleItemPosition(recyclerView.layout);
      if target <= firstItem {
        ScrollToPosition(recyclerView, Some(target), offset);
      } else if target <= lastItem {
        if target - firstItem >= |recyclerView.children| {
          return Fail(NoChildAtIndex);
        }
        var top := recyclerView.children[target - firstItem].top;
        recyclerView.log := recyclerView.log + [ScrollBy(0, top - offset)];
      } else {
        recyclerView.log := recyclerView.log + [MemberScrollToPosition(target)];
        posted := posted + [Retry(target, tabPosition)];
      }
      if appBarLayout != null {
        appBarLayout.log := appBarLayout.log + [SetExpanded(target == 0, false)];
      }
      r := Pass;
    }

    /**
     * onTabSelected and onTabReselected: an empty tag throws, a tag whose
     * first value no item has does nothing, and otherwise the list moves to
     * the first item of that view type.
     */
    method HandleTabTap(position: int) returns (r: Outcome)
      requires Valid() && onTabSelectedListener != null && 0 <= position < |tabLayout.tabs|
      modifies this`posted, recyclerView`log, appBarLayout, onScrollListener
      ensures var tap := TapTargetOf(tabLayout.tabs[position].tag, ItemTypes(recyclerView));
              if tap.Target? then Moved(tap.index, position, r, old(posted))
              else
                && r == (if tap.TagEmpty? then Fail(EmptyTag) else Pass)
                && unchanged(this, recyclerView)
                && (appBarLayout != null ==> unchanged(appBarLayout))
                && (onScrollListener != null ==> unchanged(onScrollListener))
    {
      var tap := onTabSelectedListener.FindTarget(tabLayout.tabs[position]);
      match tap {
        case TagEmpty =>
          r := Fail(EmptyTag);
        case NoItem =>
          r := Pass;
        case Target(index) =>
          r := MoveRecycleViewToPosition(index, position);
      }
    }

    /** Runs the oldest posted retry: moveRecycleViewToPosition again with the same arguments. */
    method RunPostedRetry() returns (r: Outcome)
      requires posted != []
      modifies this`posted, recyclerView`log, appBarLayout, onScrollListener
      ensures Moved(old(posted[0]).target, old(posted[0]).tabPosition, r, old(posted[1..]))
    {
      var retry := posted[0];
      posted := posted[1..];
      r := MoveRecycleViewToPosition(retry.target, retry.tabPosition);
    }

    /** Every RecyclerViewAdapterObserver callback repopulates the tabs. */
    method OnAdapterDataChanged(event: AdapterEvent) returns (r: Outcome)
      requires Valid()
      modifies tabLayout`tabs, tabLayout`selectedTab, tabLayout`log, onScrollListener
      ensures Valid()
      ensures Populated(r)
    {
      match event {
        case Changed =>
          r := PopulateTabsFromPagerAdapter();
        case ItemRangeChanged(_, _) =>
          r := PopulateTabsFromPagerAdapter();
        case ItemRangeChangedWithPayload(_, _) =>
          r := PopulateTabsFromPagerAdapter();
        case ItemRangeInserted(_, _) =>
          r := PopulateTabsFromPagerAdapter();
        case ItemRangeRemoved(_, _) =>
          r := PopulateTabsFromPagerAdapter();
        case ItemRangeMoved(_, _, _) =>
          r := PopulateTabsFromPagerAdapter();
      }
    }
  }
}
