/**
 * The demo screen without an offset: its feed items and tab list, and what
 * the mediator does with them.
 */
module Demo {
  import opened Widgets
  import opened TabSync
  import opened TabLayoutMediator

  /** The feed's view types A..H and OTHER. */
  const FEED_A := 0
  const FEED_C := 2
  const FEED_D := 3
  const FEED_E := 4
  const FEED_F := 5
  const FEED_G := 6
  const FEED_H := 7
  const FEED_OTHER := 100

  /** The items' view types: A..H, then twenty OTHER items. */
  function FeedViewTypes(): (r: seq<int>)
    ensures |r| == 28
    ensures forall i :: 0 <= i < 8 ==> r[i] == i
    ensures forall i :: 8 <= i < 28 ==> r[i] == FEED_OTHER
  {
    [0, 1, 2, 3, 4, 5, 6, 7] + seq(20, _ => FEED_OTHER)
  }

  /** The (start, end) view types of the four tabs Gallery, D, G and OTHER. */
  const TAB_RANGES: seq<(int, int)> := [(FEED_A, FEED_C), (FEED_D, FEED_F), (FEED_G, FEED_H), (FEED_OTHER, FEED_OTHER)]

  /** The screen's configuration strategy; it is only called below the tab count. */
  function FeedTabTag(position: int): seq<int> {
    if 0 <= position < |TAB_RANGES| then [TAB_RANGES[position].0, TAB_RANGES[position].1] else []
  }

  function FeedTabs(): (tabs: seq<Tab>)
    ensures tabs == [Tab([0, 2]), Tab([3, 5]), Tab([6, 7]), Tab([100, 100])]
  {
    PopulatedTabs(|TAB_RANGES|, FeedTabTag)
  }

  /** Tapping the OTHER tab resolves to the first OTHER item, index 8; tapping Gallery resolves to item 0. */
  lemma FeedTapTargets()
    ensures TapTargetOf(FeedTabs()[3].tag, FeedViewTypes()) == Target(8)
    ensures TapTargetOf(FeedTabs()[0].tag, FeedViewTypes()) == Target(0)
    ensures TapTargetOf(FeedTabs()[1].tag, FeedViewTypes()) == Target(3)
  {
    var types := FeedViewTypes();
    FirstIndexOfIsLowest(types, FEED_OTHER, 0);
    assert types[8] == FEED_OTHER;
    assert forall i :: 0 <= i < 8 ==> types[i] != FEED_OTHER;
  }

  /**
   * An item of type F anchors tab D; an item of type E, strictly inside D's
   * range, matches no tab, so neither the refresh nor a scroll update moves
   * the selection.
   */
  lemma FeedAnchors(selected: int)
    ensures RefreshSweep(FeedTabs(), FEED_F, selected, 0).selected == 1
    ensures selected != 1 ==> NextChangedMatch(FeedTabs(), FEED_F, selected, 0) == Some(1)
    ensures RefreshSweep(FeedTabs(), FEED_E, selected, 0) == Sweep(selected, [])
    ensures NextChangedMatch(FeedTabs(), FEED_E, selected, 0) == None
  {
  }

  /**
   * With item A at the top, the first refresh selects Gallery with one
   * command and the second one, finding Gallery selected, issues none.
   */
  lemma FeedInitialSelection()
    ensures RefreshSweep(FeedTabs(), FEED_A, -1, 0) == Sweep(0, [SetScrollPosition(0, true, true)])
    ensures RefreshSweep(FeedTabs(), FEED_A, 0, 0) == Sweep(0, [])
  {
  }

  /** The child views of items 0..5 from the top of the list, at the items' heights A 100, B 200, C 100, D 200, E 100, F 100. */
  function FeedChildren(): (children: seq<Bounds>)
    ensures |children| == 6 && children[3] == Bounds(400, 600)
  {
    [Bounds(0, 100), Bounds(100, 300), Bounds(300, 400), Bounds(400, 600), Bounds(600, 700), Bounds(700, 800)]
  }

  /** The laid-out views of the visible items, by position. */
  function FeedViews(): map<int, Bounds> {
    map i | 0 <= i < |FeedChildren()| :: FeedChildren()[i]
  }

  /** The demo screen's list: a linear layout showing items 0..5 with item 0 at the top. */
  method FeedScreen() returns (mediator: TabLayoutMediator2, list: RecyclerView, strip: TabLayout, appBar: AppBarLayout)
    ensures fresh(mediator) && fresh(list) && fresh(strip) && fresh(appBar) && fresh(list.adapter)
    ensures mediator.Valid() && !mediator.attached && mediator.posted == []
    ensures mediator.tabLayout == strip && mediator.recyclerView == list && mediator.appBarLayout == appBar
    ensures mediator.tabCount == |TAB_RANGES| && mediator.offset == 0 && mediator.autoRefresh
    ensures mediator.tabConfigurationStrategy == FeedTabTag
    ensures list.adapter != null && list.adapter.viewTypes == FeedViewTypes() && list.log == []
    ensures list.layout == Linear(0, 5, 28, FeedViews())
    ensures list.children == FeedChildren()
    ensures strip.log == [] && appBar.log == []
  {
    var adapter := new Adapter(FeedViewTypes());
    list := new RecyclerView(adapter, Linear(0, 5, 28, FeedViews()), FeedChildren());
    strip := new TabLayout([]);
    appBar := new AppBarLayout();
    mediator := new TabLayoutMediator2(strip, list, |TAB_RANGES|, appBar, 0, true, FeedTabTag);
  }

  /**
   * Attaching the demo screen builds the four tabs and selects Gallery; a
   * second attach fails, and a detach followed by an attach succeeds again.
   */
  method AttachFeedScreen()
  {
    var mediator, list, strip, appBar := FeedScreen();
    var r := mediator.Attach();
    assert strip.tabs == FeedTabs();
    assert RefreshAnchor(list, 0) == Anchored(FEED_A);
    FeedInitialSelection();
    assert r == Pass && mediator.onScrollListener.selectedTabPosition == 0;
    assert strip.log == [SetScrollPosition(0, true, true)];

    r := mediator.Attach();
    assert r == Fail(AlreadyAttached);
    r := mediator.Detach();
    assert r == Pass && !mediator.attached;
    r := mediator.Attach();
    assert r == Pass && mediator.attached;
  }

  /**
   * Tapping OTHER jumps coarsely to item 8, below the visible window, posts
   * a retry and collapses the app bar; once the list has scrolled there, the
   * retry scrolls item 8 onto the top line.
   */
  method TapOtherTab()
  {
    var mediator, list, strip, appBar := FeedScreen();
    var r := mediator.Attach();
    assert strip.tabs == FeedTabs();
    FeedTapTargets();
    r := mediator.HandleTabTap(3);
    assert r == Pass;
    assert list.log == [MemberScrollToPosition(8)];
    assert mediator.posted == [Retry(8, 3)];
    assert appBar.log == [SetExpanded(false, false)];
    assert mediator.onScrollListener.tabClickScroll && mediator.onScrollListener.selectedTabPosition == 3;

    list.layout := Linear(8, 14, 28, map[]);
    r := mediator.RunPostedRetry();
    assert r == Pass && mediator.posted == [];
    assert list.log == [MemberScrollToPosition(8), StopScroll, ScrollToPositionWithOffset(8, 0)];
  }

  /** Tapping Gallery scrolls to item 0 with the offset and expands the app bar. */
  method TapGalleryTab()
  {
    var mediator, list, strip, appBar := FeedScreen();
    var r := mediator.Attach();
    assert strip.tabs == FeedTabs();
    FeedTapTargets();
    r := mediator.HandleTabTap(0);
    assert r == Pass && mediator.posted == [];
    assert list.log == [StopScroll, ScrollToPositionWithOffset(0, 0)];
    assert appBar.log == [SetExpanded(true, false)];
  }

  /**
   * Tapping D targets item 3, inside the visible window: the list scrolls by
   * the distance from that child's top to the offset line and the app bar
   * collapses; no retry is posted.
   */
  method TapDTab()
  {
    var mediator, list, strip, appBar := FeedScreen();
    var r := mediator.Attach();
    assert strip.tabs == FeedTabs();
    FeedTapTargets();
    r := mediator.HandleTabTap(1);
    assert r == Pass && mediator.posted == [];
    assert list.log == [ScrollBy(0, 400)];
    assert appBar.log == [SetExpanded(false, false)];
  }

  /** Every data change rebuilds the same four tabs and, with item A still on top, keeps Gallery selected. */
  method RepopulateFeedScreen()
  {
    var mediator, list, strip, appBar := FeedScreen();
    var r := mediator.Attach();
    assert strip.tabs == FeedTabs();
    FeedInitialSelection();
    assert mediator.onScrollListener.selectedTabPosition == 0;
    r := mediator.OnAdapterDataChanged(Changed);
    assert r == Pass && strip.tabs == FeedTabs();
    assert mediator.onScrollListener.selectedTabPosition == 0;
    r := mediator.OnAdapterDataChanged(ItemRangeInserted(28, 1));
    assert r == Pass && strip.tabs == FeedTabs();
    assert strip.log == [SetScrollPosition(0, true, true)];
  }
}
