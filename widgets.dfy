/**
 * The abstract world the mediator talks to: the scrolling list (RecyclerView),
 * its data source (Adapter) and layout snapshot (LayoutManager), the tab strip
 * (TabLayout) and the optional collapsing header (AppBarLayout).
 *
 * Widgets do not render or animate here. Every command the core issues to a
 * widget is appended to that widget's log, and every listener or observer it
 * registers is kept in a set of registered objects.
 */
module Widgets {

  datatype Option<T> = None | Some(value: T)

  /** What the mediator's operations end with: normally, or with the exception the source throws. */
  datatype Outcome = Pass | Fail(failure: Failure)

  datatype Failure =
    | AlreadyAttached          // check(!attached) in attach
    | AttachedBeforeAdapter    // checkNotNull(adapter) in attach
    | ListenerNotInstalled     // onTabSelectedListener!! in detach
    | EmptyTag                 // IntArray.first() on an empty tag
    | NoChildAtIndex           // getChildAt(..) returned null, then .top
    | ViewTypeIndexOutOfBounds // the adapter's getItemViewType outside its items

  /** On-screen vertical bounds of a laid-out item view. */
  datatype Bounds = Bounds(top: int, bottom: int)

  /**
   * A snapshot of the list's layout manager. `Other` stands for any other
   * layout manager and for none at all.
   */
  datatype LayoutManager =
    | Linear(first: int, last: int, itemCount: int, views: map<int, Bounds>)
    | Staggered(firstSpans: seq<int>, lastSpans: seq<int>, itemCount: int, views: map<int, Bounds>)
    | Other

  /** What reading an item's view type yields: a type, or the adapter's out-of-range failure. */
  datatype Lookup = Found(viewType: int) | OutOfBounds

  /** Commands the core issues to the list. */
  datatype ListCommand =
    | StopScroll
    | ScrollToPositionWithOffset(position: int, offset: int) // on the layout manager
    | MemberScrollToPosition(position: int)                  // RecyclerView's own scrollToPosition(int); stops any scroll itself, no offset alignment
    | ScrollBy(dx: int, dy: int)

  /** setScrollPosition(position, 0f, updateSelectedText, updateIndicatorPosition). */
  datatype TabCommand = SetScrollPosition(position: int, updateText: bool, updateIndicator: bool)

  /** setExpanded(expanded, animate). */
  datatype AppBarCommand = SetExpanded(expanded: bool, animate: bool)

  /** A tab entry; its tag is the IntArray returned by the configuration strategy. */
  datatype Tab = Tab(tag: seq<int>)

  /** The list's data source; only the view type of each item matters to the core. */
  class Adapter {
    var viewTypes: seq<int>
    var observers: set<object>

    constructor (viewTypes: seq<int>)
      ensures this.viewTypes == viewTypes && observers == {}
    {
      this.viewTypes := viewTypes;
      observers := {};
    }
  }

  class RecyclerView {
    var adapter: Adapter?
    var layout: LayoutManager
    /** The child views currently attached, in order (getChildAt). */
    var children: seq<Bounds>
    var log: seq<ListCommand>
    var scrollListeners: set<object>

    constructor (adapter: Adapter?, layout: LayoutManager, children: seq<Bounds>)
      ensures this.adapter == adapter && this.layout == layout && this.children == children
      ensures log == [] && scrollListeners == {}
    {
      this.adapter := adapter;
      this.layout := layout;
      this.children := children;
      log := [];
      scrollListeners := {};
    }

    /**
     * adapter?.getItemViewType(position) ?: -1, where the adapter's own
     * lookup fails outside its items (an IndexOutOfBoundsException).
     */
    function ItemViewType(position: int): Lookup
      reads this, adapter
    {
      if adapter == null then Found(-1)
      else if 0 <= position < |adapter.viewTypes| then Found(adapter.viewTypes[position])
      else OutOfBounds
    }
  }

  class TabLayout {
    var tabs: seq<Tab>
    /** Index of the strip's own selected tab, -1 for none. */
    var selectedTab: int
    var log: seq<TabCommand>
    var tabSelectedListeners: set<object>

    constructor (tabs: seq<Tab>)
      ensures this.tabs == tabs && selectedTab == -1 && log == [] && tabSelectedListeners == {}
    {
      this.tabs := tabs;
      selectedTab := -1;
      log := [];
      tabSelectedListeners := {};
    }
  }

  class AppBarLayout {
    var log: seq<AppBarCommand>

    constructor ()
      ensures log == []
    {
      log := [];
    }
  }
}
