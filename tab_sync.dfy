/**
 * The index logic of the mediator, as functions: which tabs a view type
 * matches, the two animation flags of the scroll listener, and the three scans
 * the mediator runs over tabs and items (the scroll listener's scan, the
 * selection refresh and the tab-tap target search).
 */
module TabSync {
  import opened Widgets

  /** RecyclerView.SCROLL_STATE_IDLE, _DRAGGING and _SETTLING. */
  const SCROLL_STATE_IDLE := 0
  const SCROLL_STATE_DRAGGING := 1
  const SCROLL_STATE_SETTLING := 2

  /** IntArray.contains: a tag matches only the values stored in it. */
  predicate Matches(tag: seq<int>, viewType: int) {
    viewType in tag
  }

  /**
   * A tab configured with intArrayOf(start, end) matches a view type exactly
   * when the type is one of the two endpoints; a value strictly between them
   * does not match.
   */
  lemma PairTagMatchesEndpointsOnly(start: int, end: int, viewType: int)
    ensures Matches([start, end], viewType) <==> viewType == start || viewType == end
    ensures start < viewType < end ==> !Matches([start, end], viewType)
  {
  }

  /** Whether setScrollPosition may update the selected text. */
  function UpdateText(scrollState: int, previousScrollState: int): bool {
    scrollState != SCROLL_STATE_SETTLING || previousScrollState == SCROLL_STATE_DRAGGING
  }

  /** Whether setScrollPosition may move the indicator. */
  function UpdateIndicator(scrollState: int, previousScrollState: int): bool {
    !(scrollState == SCROLL_STATE_SETTLING && previousScrollState == SCROLL_STATE_IDLE)
  }

  /**
   * The text is held back only for a settle that did not follow a drag, and
   * the indicator only for a settle that followed idle.
   */
  lemma UpdateFlagsSpec(scrollState: int, previousScrollState: int)
    ensures !UpdateText(scrollState, previousScrollState) <==>
              scrollState == SCROLL_STATE_SETTLING && previousScrollState != SCROLL_STATE_DRAGGING
    ensures !UpdateIndicator(scrollState, previousScrollState) <==>
              scrollState == SCROLL_STATE_SETTLING && previousScrollState == SCROLL_STATE_IDLE
    ensures !UpdateText(scrollState, previousScrollState) ==> scrollState == SCROLL_STATE_SETTLING
  {
  }

  // ---------------------------------------------------------------------------
  // The scroll listener's scan: the first matching tab that differs from the
  // current selection, after which the loop breaks.

  function NextChangedMatch(tabs: seq<Tab>, viewType: int, selected: int, from: nat): Option<nat>
    decreases |tabs| - from
  {
    if from >= |tabs| then None
    else if Matches(tabs[from].tag, viewType) && from != selected then Some(from)
    else NextChangedMatch(tabs, viewType, selected, from + 1)
  }

  /**
   * The scan yields the lowest tab index at or after `from` that matches the
   * view type and is not the current selection, and nothing when every
   * matching tab is the current selection.
   */
  lemma {:induction false} NextChangedMatchIsLowest(tabs: seq<Tab>, viewType: int, selected: int, from: nat)
    ensures NextChangedMatch(tabs, viewType, selected, from).None? <==>
              forall i :: from <= i < |tabs| && Matches(tabs[i].tag, viewType) ==> i == selected
    ensures NextChangedMatch(tabs, viewType, selected, from).Some? ==>
              var k := NextChangedMatch(tabs, viewType, selected, from).value;
              from <= k < |tabs| && Matches(tabs[k].tag, viewType) && k != selected &&
              forall i :: from <= i < k && Matches(tabs[i].tag, viewType) ==> i == selected
    decreases |tabs| - from
  {
    if from < |tabs| && !(Matches(tabs[from].tag, viewType) && from != selected) {
      NextChangedMatchIsLowest(tabs, viewType, selected, from + 1);
    }
  }

  /**
   * When two tabs both match the anchored view type, each scroll update moves
   * the selection to the other one: the scan skips the selected tab, not the
   * matching one.
   */
  lemma OverlappingTabsAlternate(tabs: seq<Tab>, viewType: int)
    requires |tabs| >= 2 && Matches(tabs[0].tag, viewType) && Matches(tabs[1].tag, viewType)
    ensures NextChangedMatch(tabs, viewType, 0, 0) == Some(1)
    ensures NextChangedMatch(tabs, viewType, 1, 0) == Some(0)
  {
  }

  // ---------------------------------------------------------------------------
  // The selection refresh: the same scan without a break, so every matching
  // tab that differs from the selection at that moment is selected in turn.

  /** Where a scan leaves the selection, and the commands it issued on the way. */
  datatype Sweep = Sweep(selected: int, commands: seq<TabCommand>)

  function RefreshSweep(tabs: seq<Tab>, viewType: int, selected: int, from: nat): Sweep
    decreases |tabs| - from
  {
    if from >= |tabs| then Sweep(selected, [])
    else if Matches(tabs[from].tag, viewType) && selected != from then
      var rest := RefreshSweep(tabs, viewType, from, from + 1);
      Sweep(rest.selected, [SetScrollPosition(from, true, true)] + rest.commands)
    else RefreshSweep(tabs, viewType, selected, from + 1)
  }

  /**
   * The refresh leaves the selection on the HIGHEST-index matching tab, and
   * unchanged when no tab matches. Each command it issues selects a matching
   * tab with both flags set, the last one selects the final tab, and it issues
   * none exactly when every matching tab is the one already selected.
   */
  lemma {:induction false} RefreshSweepSelectsLastMatch(tabs: seq<Tab>, viewType: int, selected: int, from: nat)
    ensures var s := RefreshSweep(tabs, viewType, selected, from);
            (forall i :: from <= i < |tabs| ==> !Matches(tabs[i].tag, viewType)) ==> s.selected == selected
    ensures var s := RefreshSweep(tabs, viewType, selected, from);
            (exists i :: from <= i < |tabs| && Matches(tabs[i].tag, viewType)) ==>
              from <= s.selected < |tabs| && Matches(tabs[s.selected].tag, viewType) &&
              forall j :: s.selected < j < |tabs| ==> !Matches(tabs[j].tag, viewType)
    ensures var s := RefreshSweep(tabs, viewType, selected, from);
            forall k :: 0 <= k < |s.commands| ==>
              var c := s.commands[k];
              c.updateText && c.updateIndicator && from <= c.position < |tabs| && Matches(tabs[c.position].tag, viewType)
    ensures var s := RefreshSweep(tabs, viewType, selected, from);
            s.commands != [] ==> s.commands[|s.commands| - 1].position == s.selected
    ensures var s := RefreshSweep(tabs, viewType, selected, from);
            s.commands == [] <==> forall i :: from <= i < |tabs| && Matches(tabs[i].tag, viewType) ==> i == selected
    decreases |tabs| - from
  {
    if from < |tabs| {
      if Matches(tabs[from].tag, viewType) && selected != from {
        RefreshSweepSelectsLastMatch(tabs, viewType, from, from + 1);
      } else {
        RefreshSweepSelectsLastMatch(tabs, viewType, selected, from + 1);
      }
    }
  }

  /** Refreshing a second time leaves the selection where the first refresh put it. */
  lemma RefreshSweepStable(tabs: seq<Tab>, viewType: int, selected: int)
    ensures var once := RefreshSweep(tabs, viewType, selected, 0);
            RefreshSweep(tabs, viewType, once.selected, 0).selected == once.selected
  {
    var once := RefreshSweep(tabs, viewType, selected, 0);
    RefreshSweepSelectsLastMatch(tabs, viewType, selected, 0);
    RefreshSweepSelectsLastMatch(tabs, viewType, once.selected, 0);
  }

  // ---------------------------------------------------------------------------
  // The tab-tap target: the first item whose view type equals the tab's first tag value.

  function FirstIndexOf(viewTypes: seq<int>, viewType: int, from: nat): Option<nat>
    decreases |viewTypes| - from
  {
    if from >= |viewTypes| then None
    else if viewTypes[from] == viewType then Some(from)
    else FirstIndexOf(viewTypes, viewType, from + 1)
  }

  /** The search yields the lowest item index at or after `from` with that view type, if any. */
  lemma {:induction false} FirstIndexOfIsLowest(viewTypes: seq<int>, viewType: int, from: nat)
    ensures FirstIndexOf(viewTypes, viewType, from).None? <==>
              forall i :: from <= i < |viewTypes| ==> viewTypes[i] != viewType
    ensures FirstIndexOf(viewTypes, viewType, from).Some? ==>
              var k := FirstIndexOf(viewTypes, viewType, from).value;
              from <= k < |viewTypes| && viewTypes[k] == viewType &&
              forall i :: from <= i < k ==> viewTypes[i] != viewType
    decreases |viewTypes| - from
  {
    if from < |viewTypes| && viewTypes[from] != viewType {
      FirstIndexOfIsLowest(viewTypes, viewType, from + 1);
    }
  }
}
