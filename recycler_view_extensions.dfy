/**
 * The list queries and the scroll helper the mediator builds on: the first
 * visible item (optionally the one straddling an offset line below the top),
 * the last visible item, and a guarded scroll-to-position.
 */
module RecyclerViewExtensions {
  import opened Widgets

  /** firstOrNull() ?: 0 on the per-span positions of a staggered grid. */
  function FirstOrZero(spans: seq<int>): int {
    if |spans| > 0 then spans[0] else 0
  }

  /** The layout manager's own first visible position. */
  function NativeFirst(lm: LayoutManager): int
    requires !lm.Other?
  {
    if lm.Linear? then lm.first else FirstOrZero(lm.firstSpans)
  }

  /** Item `index` has a laid-out view whose bounds straddle the offset line. */
  predicate Straddles(lm: LayoutManager, index: int, offset: int)
    requires !lm.Other?
  {
    index in lm.views && lm.views[index].top <= offset && lm.views[index].bottom >= offset
  }

  /** The forward scan over from, from + 1, ..., itemCount - 1 for a straddling item. */
  function ScanStraddle(lm: LayoutManager, from: int, offset: int): Option<int>
    requires !lm.Other?
    decreases lm.itemCount - from
  {
    if from >= lm.itemCount then None
    else if Straddles(lm, from, offset) then Some(from)
    else ScanStraddle(lm, from + 1, offset)
  }

  /** The value of findFirstVisibleItemPosition(offset). */
  function FirstVisibleIndex(lm: LayoutManager, offset: int): int {
    if lm.Other? then 0
    else if offset == 0 then NativeFirst(lm)
    else match ScanStraddle(lm, NativeFirst(lm), offset)
      case Some(index) => index
      case None => NativeFirst(lm)
  }

  /** The scan finds exactly the lowest straddling index at or after `from`, if there is one. */
  lemma {:induction false} ScanStraddleIsLowest(lm: LayoutManager, from: int, offset: int)
    requires !lm.Other?
    ensures ScanStraddle(lm, from, offset).None? <==>
              forall i :: from <= i < lm.itemCount ==> !Straddles(lm, i, offset)
    ensures ScanStraddle(lm, from, offset).Some? ==>
              var k := ScanStraddle(lm, from, offset).value;
              from <= k < lm.itemCount && Straddles(lm, k, offset) &&
              forall i :: from <= i < k ==> !Straddles(lm, i, offset)
    decreases lm.itemCount - from
  {
    if from < lm.itemCount && !Straddles(lm, from, offset) {
      ScanStraddleIsLowest(lm, from + 1, offset);
    }
  }

  /**
   * What findFirstVisibleItemPosition promises: 0 without a linear or
   * staggered layout; the native first position when the offset is 0;
   * otherwise the lowest index from the native first position up to the item
   * count whose laid-out view straddles the offset line, or the native first
   * position when there is none.
   */
  lemma FirstVisibleIndexSpec(lm: LayoutManager, offset: int)
    ensures lm.Other? ==> FirstVisibleIndex(lm, offset) == 0
    ensures lm.Linear? && offset == 0 ==> FirstVisibleIndex(lm, offset) == lm.first
    ensures lm.Staggered? && offset == 0 ==> FirstVisibleIndex(lm, offset) == FirstOrZero(lm.firstSpans)
    ensures !lm.Other? && offset != 0 ==>
              var first, r := NativeFirst(lm), FirstVisibleIndex(lm, offset);
              ((forall i :: first <= i < lm.itemCount ==> !Straddles(lm, i, offset)) ==> r == first) &&
              ((exists i :: first <= i < lm.itemCount && Straddles(lm, i, offset)) ==>
                 first <= r < lm.itemCount && Straddles(lm, r, offset) &&
                 forall i :: first <= i < r ==> !Straddles(lm, i, offset))
    ensures !lm.Other? ==> FirstVisibleIndex(lm, offset) >= NativeFirst(lm)
  {
    if !lm.Other? {
      ScanStraddleIsLowest(lm, NativeFirst(lm), offset);
    }
  }

  /** findFirstVisibleItemPosition(offset): the search loop with its early return. */
  method FindFirstVisibleItemPosition(lm: LayoutManager, offset: int) returns (r: int)
    ensures r == FirstVisibleIndex(lm, offset)
  {
    if lm.Other? {
      return 0;
    }
    var first := NativeFirst(lm);
    if offset == 0 {
      return first;
    }
    var offsetFirstVisible := first;
    var index := first;
    while index < lm.itemCount
      invariant first <= index
      invariant ScanStraddle(lm, first, offset) == ScanStraddle(lm, index, offset)
      decreases lm.itemCount - index
    {
      if index in lm.views {
        var view := lm.views[index];
        if view.top <= offset && view.bottom >= offset {
          offsetFirstVisible := index;
          return offsetFirstVisible;
        }
      }
      index := index + 1;
    }
    return offsetFirstVisible;
  }

  /** findLastVisibleItemPosition(): a dispatch on the layout kind. */
  function FindLastVisibleItemPosition(lm: LayoutManager): (r: int)
    ensures lm.Linear? ==> r == lm.last
    ensures lm.Staggered? ==> r == FirstOrZero(lm.lastSpans)
    ensures lm.Other? ==> r == 0
  {
    match lm
    case Linear(_, last, _, _) => last
    case Staggered(_, lastSpans, _, _) => FirstOrZero(lastSpans)
    case Other => 0
  }

  /** The commands scrollToPosition(position, offset) issues to the list. */
  function ScrollToPositionCommands(lm: LayoutManager, position: Option<int>, offset: int): (r: seq<ListCommand>)
    ensures r == [] <==> position.None? || position.value < 0
    ensures r != [] ==> r[0] == StopScroll
    ensures r != [] ==> (|r| == 2 <==> !lm.Other?)
    ensures |r| == 2 ==> r[1] == ScrollToPositionWithOffset(position.value, offset)
  {
    if position.None? || position.value < 0 then []
    else if lm.Other? then [StopScroll]
    else [StopScroll, ScrollToPositionWithOffset(position.value, offset)]
  }

  /** scrollToPosition(position, offset): the guarded scroll helper. */
  method ScrollToPosition(rv: RecyclerView, position: Option<int>, offset: int)
    modifies rv`log
    ensures rv.log == old(rv.log) + ScrollToPositionCommands(rv.layout, position, offset)
  {
    if position.None? || position.value < 0 {
      return;
    }
    rv.log := rv.log + [StopScroll];
    match rv.layout {
      case Linear(_, _, _, _) =>
        rv.log := rv.log + [ScrollToPositionWithOffset(position.value, offset)];
      case Staggered(_, _, _, _) =>
        rv.log := rv.log + [ScrollToPositionWithOffset(position.value, offset)];
      case Other =>
    }
  }
}
