/**
 * The `usePagination` hook: a list shows a growing window of `data`, 24
 * items at first and 9 more each time the user scrolls to the end.
 *
 * Each setter call of the hook is a step here, and the component re-renders
 * between steps, so every handler reads the state the previous step left.
 * The delayed load is two steps: `handleLoadMoreData` arms the timer, and
 * the timer's callback completes the load later with the `data` and the
 * window length that were current when it was armed (the callback's
 * closure), while appending to whatever window is current when it runs.
 * `Pager` is the state as a value, the functions below are the steps, and
 * the class `Pagination` holds the same state in fields and follows them.
 */
module Pagination {

  const InitialItems := 24
  const LoadMoreItems := 9

  function Min(a: int, b: int): int
  {
    if a <= b then a else b
  }

  /** JavaScript's `s.slice(from, to)` for `0 <= from <= to`: out-of-range ends are clipped. */
  function Slice<T>(s: seq<T>, from: nat, to: nat): (r: seq<T>)
    requires from <= to
    ensures |r| == if from >= |s| then 0 else Min(to, |s|) - from
    ensures forall i :: 0 <= i < |r| ==> r[i] == s[from + i]
  {
    if from >= |s| then [] else s[from..Min(to, |s|)]
  }

  datatype Pager<T> = Pager(
    data: seq<T>,          // the hook's argument in the latest render
    visible: seq<T>,       // `visibleData`
    loadingMore: bool,
    scrollOffset: int,
    allLoaded: bool,       // `allDataLoaded`
    armedData: seq<T>,     // `data` as the armed timer's callback captured it
    armedLength: nat)      // `visibleData.length` as the callback captured it

  /** The effect on a (new) `data`: show its first window; nothing else is reset. */
  function Reset<T>(p: Pager<T>, data: seq<T>): Pager<T>
  {
    p.(data := data, visible := Slice(data, 0, InitialItems))
  }

  /** `setScrollOffset`. */
  function Scroll<T>(p: Pager<T>, offset: int): Pager<T>
  {
    p.(scrollOffset := offset)
  }

  /** Whether `handleLoadMoreData` returns at once. */
  predicate Ignored<T>(p: Pager<T>)
  {
    p.scrollOffset == 0 || p.loadingMore || p.allLoaded
  }

  /** `handleLoadMoreData`: unless ignored, flag the load and arm the timer. */
  function StartLoad<T>(p: Pager<T>): Pager<T>
  {
    if Ignored(p) then p
    else p.(loadingMore := true, armedData := p.data, armedLength := |p.visible|)
  }

  /** The slice the armed callback appends. */
  function NextData<T>(p: Pager<T>): seq<T>
  {
    Slice(p.armedData, p.armedLength, p.armedLength + LoadMoreItems)
  }

  /** The timer's callback: append the next slice, note an empty one, clear the flag. */
  function FinishLoad<T>(p: Pager<T>): Pager<T>
    requires p.loadingMore
  {
    var next := NextData(p);
    p.(allLoaded := p.allLoaded || next == [],
       visible := p.visible + next,
       loadingMore := false)
  }

  /** The state right after the first render's effect ran on `data`. */
  function Mounted<T>(data: seq<T>): Pager<T>
  {
    Reset(Pager([], [], false, 0, false, [], 0), data)
  }

  /**
   * With `data` unchanged since the timer was armed, the window is a prefix
   * of `data`, and a pending load captured exactly the current `data` and
   * window length.
   */
  ghost predicate Steady<T>(p: Pager<T>)
  {
    && p.visible <= p.data
    && (p.loadingMore ==> p.armedData == p.data && p.armedLength == |p.visible|)
  }

  // ---------------------------------------------------------------------
  // What the hook promises.
  // ---------------------------------------------------------------------

  /** A new `data` shows its first min(24, |data|) items and resets no flag. */
  lemma ResetShowsFirstWindow<T>(p: Pager<T>, data: seq<T>)
    ensures Reset(p, data).visible <= data
    ensures |Reset(p, data).visible| == Min(InitialItems, |data|)
    ensures Reset(p, data).loadingMore == p.loadingMore && Reset(p, data).allLoaded == p.allLoaded
  {
  }

  /**
   * A load starts exactly when the offset is nonzero, no load is running
   * and not all data is loaded; starting one changes nothing but the flag
   * and the timer's snapshot.
   */
  lemma StartLoadGuard<T>(p: Pager<T>)
    ensures StartLoad(p) == p <==> Ignored(p)
    ensures !Ignored(p) ==>
      (StartLoad(p).loadingMore && StartLoad(p).visible == p.visible &&
       StartLoad(p).allLoaded == p.allLoaded && StartLoad(p).data == p.data)
  {
  }

  /**
   * With `data` unchanged, a completed load extends the window by the next
   * min(9, |data| - |window|) items of `data` and clears the flag.
   */
  lemma {:induction false} LoadGrowsWindow<T>(p: Pager<T>)
    requires Steady(p) && p.loadingMore
    ensures FinishLoad(p).visible <= p.data
    ensures p.visible <= FinishLoad(p).visible
    ensures |FinishLoad(p).visible| == |p.visible| + Min(LoadMoreItems, |p.data| - |p.visible|)
    ensures !FinishLoad(p).loadingMore
  {
    var next := NextData(p);
    assert p.visible == p.data[..|p.visible|];
    assert FinishLoad(p).visible == p.data[..|p.visible| + |next|];
  }

  /**
   * `allDataLoaded` turns true exactly when a completed load finds nothing
   * more (with `data` unchanged: when the window already holds all of it),
   * and no step ever turns it false.
   */
  lemma AllLoadedWhenNothingLeft<T>(p: Pager<T>, data: seq<T>, offset: int)
    ensures p.loadingMore ==> (FinishLoad(p).allLoaded <==> p.allLoaded || NextData(p) == [])
    ensures Steady(p) && p.loadingMore ==> (NextData(p) == [] <==> |p.visible| == |p.data|)
    ensures p.allLoaded ==>
      Reset(p, data).allLoaded && Scroll(p, offset).allLoaded && StartLoad(p).allLoaded &&
      (p.loadingMore ==> FinishLoad(p).allLoaded)
  {
  }

  /**
   * Every step keeps the window a prefix of `data` as long as `data` does
   * not change while a load is pending.
   */
  lemma {:induction false} SteadyPreserved<T>(p: Pager<T>, data: seq<T>, offset: int)
    requires Steady(p)
    ensures Steady(StartLoad(p)) && Steady(Scroll(p, offset))
    ensures p.loadingMore ==> Steady(FinishLoad(p))
    ensures !p.loadingMore ==> Steady(Reset(p, data))
  {
    if p.loadingMore {
      LoadGrowsWindow(p);
    }
  }

  lemma MountedSteady<T>(data: seq<T>)
    ensures Steady(Mounted(data)) && !Mounted(data).allLoaded && !Mounted(data).loadingMore
    ensures |Mounted(data).visible| == Min(InitialItems, |data|)
  {
  }

  /**
   * A `data` that changes while a load is pending breaks the prefix
   * property: the callback appends a slice of the old `data`, at the old
   * length, to the new window.
   */
  lemma ChangedDataWhileLoading()
    ensures var p := StartLoad(Scroll(Mounted(seq(30, i => 0)), 1));
      var q := FinishLoad(Reset(p, seq(30, i => 1)));
      Steady(p) && !(q.visible <= q.data)
  {
    var p := StartLoad(Scroll(Mounted(seq(30, i => 0)), 1));
    var q := FinishLoad(Reset(p, seq(30, i => 1)));
    assert q.visible[24] == 0 && q.data[24] == 1;
  }

  /** The hook's state cells. */
  class Pagination<T> {
    var data: seq<T>
    var visibleData: seq<T>
    var loadingMore: bool
    var scrollOffset: int
    var allDataLoaded: bool
    // what the armed timer's callback captured
    var armedData: seq<T>
    var armedLength: nat

    function State(): Pager<T>
      reads this
    {
      Pager(data, visibleData, loadingMore, scrollOffset, allDataLoaded, armedData, armedLength)
    }

    /** The first render, with its effect on `initial`. */
    constructor (initial: seq<T>)
      ensures State() == Mounted(initial)
    {
      data := initial;
      visibleData := [];
      loadingMore, scrollOffset, allDataLoaded := false, 0, false;
      armedData, armedLength := [], 0;
      visibleData := if |initial| <= InitialItems then initial else initial[..InitialItems];
    }

    /** A render with a different `data` runs the effect. */
    method DataChanged(newData: seq<T>)
      modifies this
      ensures State() == Reset(old(State()), newData)
    {
      data := newData;
      visibleData := if |newData| <= InitialItems then newData else newData[..InitialItems];
    }

    method SetScrollOffset(offset: int)
      modifies this
      ensures State() == Scroll(old(State()), offset)
    {
      scrollOffset := offset;
    }

    method HandleLoadMoreData()
      modifies this
      ensures State() == StartLoad(old(State()))
    {
      if scrollOffset == 0 || loadingMore || allDataLoaded {
        return;
      }
      loadingMore := true;
      armedData, armedLength := data, |visibleData|;
    }

    /** The armed timer fires. */
    method TimerFired()
      requires loadingMore
      modifies this
      ensures State() == FinishLoad(old(State()))
    {
      var currentLength := armedLength;
      var nextData := if currentLength >= |armedData| then []
        else armedData[currentLength..Min(currentLength + LoadMoreItems, |armedData|)];
      if nextData == [] {
        allDataLoaded := true;
      }
      visibleData := visibleData + nextData;
      loadingMore := false;
    }
  }
}
