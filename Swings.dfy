/** Swing extraction (`peak_detect`): local highs and lows of one coin's bar
    series, merged in time order, reduced to the anchors X, A, B, C, D and
    the four legs between them. */
module Swings {
  import opened Wrappers

  /** One candle of the series; `time` is the Datetime column. */
  datatype Bar = Bar(time: int, high: real, low: real, close: real, symbol: string)

  /** A row of the merged peak table: when and at what price. Whether it
      was a high or a low is not kept, as in the source. */
  datatype SwingPoint = SwingPoint(time: int, price: real)

  /** The comparator handed to `argrelextrema`: `np.greater` on highs,
      `np.less` on lows. */
  datatype Extremum = Maximum | Minimum

  predicate Beats(e: Extremum, x: real, y: real)
  {
    match e
    case Maximum => x > y
    case Minimum => x < y
  }

  // ---------------------------------------------------------------------
  // argrelextrema with its default mode 'clip'
  // ---------------------------------------------------------------------

  /** An index moved past either end of the series sticks to that end. */
  function Clip(k: int, n: int): (c: int)
    requires n > 0
    ensures 0 <= c < n
    ensures 0 <= k < n ==> c == k
  {
    if k < 0 then 0 else if k >= n then n - 1 else k
  }

  function Ahead(data: seq<real>, i: int, s: int): real
    requires 0 <= i < |data|
  {
    data[Clip(i + s, |data|)]
  }

  function Behind(data: seq<real>, i: int, s: int): real
    requires 0 <= i < |data|
  {
    data[Clip(i - s, |data|)]
  }

  /** What `argrelextrema` tests at index `i`: for every shift 1..order the
      value beats the (clipped) values that far ahead and that far behind. */
  predicate ClippedExtremum(data: seq<real>, order: int, e: Extremum, i: int)
    requires 0 <= i < |data|
  {
    forall s :: 1 <= s <= order ==>
      Beats(e, data[i], Ahead(data, i, s)) && Beats(e, data[i], Behind(data, i, s))
  }

  /** The meaning of a swing: an inner bar whose value strictly beats every
      in-bounds value within `order` bars on either side. */
  predicate IsExtremum(data: seq<real>, order: int, e: Extremum, i: int)
  {
    && 0 < i < |data| - 1
    && forall j :: 0 <= j < |data| && j != i && i - order <= j <= i + order ==> Beats(e, data[i], data[j])
  }

  /** Clipping only ever compares against in-bounds neighbours, except at
      the two ends where a bar is compared with itself and so never
      qualifies under a strict comparator. */
  lemma ClippedIffWindow(data: seq<real>, order: int, e: Extremum, i: int)
    requires order >= 1
    requires 0 <= i < |data|
    ensures ClippedExtremum(data, order, e, i) <==> IsExtremum(data, order, e, i)
  {
    var n := |data|;
    if ClippedExtremum(data, order, e, i) {
      assert Beats(e, data[i], Ahead(data, i, 1)) && Beats(e, data[i], Behind(data, i, 1));
      assert 0 < i < n - 1;
      forall j | 0 <= j < n && j != i && i - order <= j <= i + order
        ensures Beats(e, data[i], data[j])
      {
        if j < i {
          assert Behind(data, i, i - j) == data[j];
        } else {
          assert Ahead(data, i, j - i) == data[j];
        }
      }
    }
    if IsExtremum(data, order, e, i) {
      forall s | 1 <= s <= order
        ensures Beats(e, data[i], Ahead(data, i, s)) && Beats(e, data[i], Behind(data, i, s))
      {
        var up, down := Clip(i + s, n), Clip(i - s, n);
        assert up != i && i - order <= up <= i + order;
        assert down != i && i - order <= down <= i + order;
      }
    }
  }

  /** No other bar within `order` bars of a swing is a swing of the same
      kind: two swing highs (or two swing lows) are more than `order` bars
      apart. */
  lemma SwingsSeparated(data: seq<real>, order: int, e: Extremum, i: int, j: int)
    requires IsExtremum(data, order, e, i)
    requires 0 <= j < |data| && j != i && i - order <= j <= i + order
    ensures !IsExtremum(data, order, e, j)
  {
    assert Beats(e, data[i], data[j]);
    assert !Beats(e, data[j], data[i]);
  }

  /** The indices from `from` on at which `argrelextrema` reports an
      extremum, in ascending order. */
  function ExtremaFrom(data: seq<real>, order: int, e: Extremum, from: nat): (idx: seq<nat>)
    requires order >= 1
    requires from <= |data|
    ensures |idx| <= |data| - from
    ensures forall k :: 0 <= k < |idx| ==> from <= idx[k] < |data| && IsExtremum(data, order, e, idx[k])
    ensures forall i :: from <= i < |data| && IsExtremum(data, order, e, i) ==> i in idx
    ensures forall k, l :: 0 <= k < l < |idx| ==> idx[k] < idx[l]
    decreases |data| - from
  {
    if from == |data| then []
    else
      var rest := ExtremaFrom(data, order, e, from + 1);
      ClippedIffWindow(data, order, e, from);
      if ClippedExtremum(data, order, e, from) then [from] + rest else rest
  }

  /** `argrelextrema(data, comparator, order=order)[0]`. */
  function ArgRelExtrema(data: seq<real>, order: int, e: Extremum): seq<nat>
    requires order >= 1
  {
    ExtremaFrom(data, order, e, 0)
  }

  // ---------------------------------------------------------------------
  // The merged peak table
  // ---------------------------------------------------------------------

  function Highs(bars: seq<Bar>): (r: seq<real>)
    ensures |r| == |bars|
  {
    seq(|bars|, i requires 0 <= i < |bars| => bars[i].high)
  }

  function Lows(bars: seq<Bar>): (r: seq<real>)
    ensures |r| == |bars|
  {
    seq(|bars|, i requires 0 <= i < |bars| => bars[i].low)
  }

  function Column(bars: seq<Bar>, e: Extremum): (r: seq<real>)
    ensures |r| == |bars|
  {
    match e
    case Maximum => Highs(bars)
    case Minimum => Lows(bars)
  }

  /** The swing point that index `i` yields when it is an extremum of kind `e`. */
  function PointAt(bars: seq<Bar>, e: Extremum, i: int): SwingPoint
    requires 0 <= i < |bars|
  {
    SwingPoint(bars[i].time, Column(bars, e)[i])
  }

  function PointsAt(bars: seq<Bar>, e: Extremum, idx: seq<nat>): (ps: seq<SwingPoint>)
    requires forall k :: 0 <= k < |idx| ==> idx[k] < |bars|
    ensures |ps| == |idx|
  {
    seq(|idx|, k requires 0 <= k < |idx| => PointAt(bars, e, idx[k]))
  }

  /** `p` is the swing high or the swing low of some bar. */
  ghost predicate IsSwingPoint(bars: seq<Bar>, order: int, p: SwingPoint)
  {
    exists i, e :: 0 <= i < |bars| && IsExtremum(Column(bars, e), order, e, i) && p == PointAt(bars, e, i)
  }

  predicate SortedByTime(s: seq<SwingPoint>)
  {
    forall k, l :: 0 <= k < l < |s| ==> s[k].time <= s[l].time
  }

  /** Places `p` before the first point that is not earlier than it. */
  function Insert(p: SwingPoint, s: seq<SwingPoint>): (r: seq<SwingPoint>)
    ensures multiset(r) == multiset(s) + multiset{p}
  {
    if s == [] || p.time <= s[0].time then [p] + s
    else
      assert s == [s[0]] + s[1..];
      [s[0]] + Insert(p, s[1..])
  }

  /** Inserting a point no earlier than `b` into a table of points no
      earlier than `b` gives such a table. */
  lemma {:induction false} InsertBounded(p: SwingPoint, s: seq<SwingPoint>, b: int)
    requires p.time >= b
    requires forall i :: 0 <= i < |s| ==> s[i].time >= b
    ensures forall i :: 0 <= i < |Insert(p, s)| ==> Insert(p, s)[i].time >= b
  {
    if s != [] && p.time > s[0].time {
      InsertBounded(p, s[1..], b);
    }
  }

  /** A point no later than every entry of a time-ordered table can head
      it. */
  lemma ConsSorted(x: SwingPoint, rest: seq<SwingPoint>)
    requires SortedByTime(rest)
    requires forall i :: 0 <= i < |rest| ==> rest[i].time >= x.time
    ensures SortedByTime([x] + rest)
  {
    var r := [x] + rest;
    forall k, l | 0 <= k < l < |r| ensures r[k].time <= r[l].time {
      if k > 0 {
        assert r[k] == rest[k - 1] && r[l] == rest[l - 1];
      }
    }
  }

  /** Inserting into a time-ordered table keeps it time-ordered. */
  lemma {:induction false} InsertSorted(p: SwingPoint, s: seq<SwingPoint>)
    requires SortedByTime(s)
    ensures SortedByTime(Insert(p, s))
  {
    if s == [] || p.time <= s[0].time {
      ConsSorted(p, s);
    } else {
      InsertSorted(p, s[1..]);
      InsertBounded(p, s[1..], s[0].time);
      ConsSorted(s[0], Insert(p, s[1..]));
    }
  }

  /** `sort_values(by=['datetime'])`. */
  function SortByTime(s: seq<SwingPoint>): (r: seq<SwingPoint>)
    ensures multiset(r) == multiset(s)
  {
    if s == [] then []
    else
      assert s == [s[0]] + s[1..];
      Insert(s[0], SortByTime(s[1..]))
  }

  lemma {:induction false} SortByTimeSorted(s: seq<SwingPoint>)
    ensures SortedByTime(SortByTime(s))
  {
    if s != [] {
      SortByTimeSorted(s[1..]);
      InsertSorted(s[0], SortByTime(s[1..]));
    }
  }

  /** The swing highs followed by the swing lows, each in bar order. */
  function MergedSwings(bars: seq<Bar>, order: int): (r: seq<SwingPoint>)
    requires order >= 1
    ensures |r| <= 2 * |bars|
  {
    var highs := ArgRelExtrema(Highs(bars), order, Maximum);
    var lows := ArgRelExtrema(Lows(bars), order, Minimum);
    PointsAt(bars, Maximum, highs) + PointsAt(bars, Minimum, lows)
  }

  /** The peak table `final_df`: every swing high and swing low, sorted by
      time. */
  function SwingList(bars: seq<Bar>, order: int): (r: seq<SwingPoint>)
    requires order >= 1
    ensures SortedByTime(r)
    ensures |r| <= 2 * |bars|
  {
    var merged := MergedSwings(bars, order);
    var r := SortByTime(merged);
    SortByTimeSorted(merged);
    assert |multiset(r)| == |multiset(merged)|;
    r
  }

  lemma SwingListSameElements(bars: seq<Bar>, order: int, q: SwingPoint)
    requires order >= 1
    ensures q in SwingList(bars, order) <==> q in MergedSwings(bars, order)
  {
    var merged := MergedSwings(bars, order);
    assert q in SwingList(bars, order) <==> q in multiset(SwingList(bars, order));
    assert q in merged <==> q in multiset(merged);
  }

  /** Every row of the peak table is a genuine swing high or swing low. */
  lemma SwingListSound(bars: seq<Bar>, order: int, q: SwingPoint)
    requires order >= 1
    requires q in SwingList(bars, order)
    ensures IsSwingPoint(bars, order, q)
  {
    SwingListSameElements(bars, order, q);
    var highs := ArgRelExtrema(Highs(bars), order, Maximum);
    var lows := ArgRelExtrema(Lows(bars), order, Minimum);
    var merged := MergedSwings(bars, order);
    var t :| 0 <= t < |merged| && merged[t] == q;
    var e := if t < |highs| then Maximum else Minimum;
    var i := if t < |highs| then highs[t] else lows[t - |highs|];
    assert 0 <= i < |bars| && IsExtremum(Column(bars, e), order, e, i) && q == PointAt(bars, e, i);
  }

  /** Every swing high and every swing low of the series is in the table. */
  lemma SwingListComplete(bars: seq<Bar>, order: int, i: int, e: Extremum)
    requires order >= 1
    requires 0 <= i < |bars| && IsExtremum(Column(bars, e), order, e, i)
    ensures PointAt(bars, e, i) in SwingList(bars, order)
  {
    var highs := ArgRelExtrema(Highs(bars), order, Maximum);
    var lows := ArgRelExtrema(Lows(bars), order, Minimum);
    var hs, ls := PointsAt(bars, Maximum, highs), PointsAt(bars, Minimum, lows);
    assert MergedSwings(bars, order) == hs + ls;
    if e == Maximum {
      var t :| 0 <= t < |highs| && highs[t] == i;
      assert hs[t] == PointAt(bars, e, i);
      assert PointAt(bars, e, i) in hs;
    } else {
      var t :| 0 <= t < |lows| && lows[t] == i;
      assert ls[t] == PointAt(bars, e, i);
      assert PointAt(bars, e, i) in ls;
    }
    SwingListSameElements(bars, order, PointAt(bars, e, i));
  }

  /** `df['Symbol'].unique().tolist()`: each value once, in order of first
      appearance. */
  function Unique(s: seq<string>): (u: seq<string>)
    ensures forall x :: x in u <==> x in s
    ensures forall k, l :: 0 <= k < l < |u| ==> u[k] != u[l]
    ensures forall k, l, j :: 0 <= k < l < |u| && 0 <= j < |s| && s[j] == u[l] ==> u[k] in s[..j]
  {
    if s == [] then []
    else
      var init := s[..|s| - 1];
      var last := s[|s| - 1];
      assert s == init + [last];
      var u := Unique(init);
      assert forall j :: 0 <= j < |init| ==> s[..j] == init[..j];
      if last in u then
        var j' :| 0 <= j' < |init| && init[j'] == last;
        assert forall k, l :: 0 <= k < l < |u| && u[l] == last ==> u[k] in s[..|s| - 1] by {
          forall k, l | 0 <= k < l < |u| && u[l] == last ensures u[k] in s[..|s| - 1] {
            assert u[k] in init[..j'];
          }
        }
        u
      else
        u + [last]
  }

  /** The `Symbol` column of a series of bars. */
  function SymbolColumn(bars: seq<Bar>): (col: seq<string>)
    ensures |col| == |bars|
  {
    seq(|bars|, i requires 0 <= i < |bars| => bars[i].symbol)
  }

  function Symbols(bars: seq<Bar>): seq<string>
  {
    Unique(SymbolColumn(bars))
  }

  // ---------------------------------------------------------------------
  // Anchors, legs and peak_detect itself
  // ---------------------------------------------------------------------

  datatype Anchors = Anchors(x: SwingPoint, a: SwingPoint, b: SwingPoint, c: SwingPoint, d: SwingPoint)

  /** The signed moves XA, AB, BC, CD. */
  datatype Legs = Legs(xa: real, ab: real, bc: real, cd: real)

  function LegsOf(p: Anchors): (m: Legs)
    ensures m.xa + m.ab + m.bc + m.cd == p.d.price - p.x.price
    ensures p.a.price == p.x.price + m.xa && p.b.price == p.a.price + m.ab
    ensures p.c.price == p.b.price + m.bc && p.d.price == p.c.price + m.cd
  {
    Legs(p.a.price - p.x.price, p.b.price - p.a.price, p.c.price - p.b.price, p.d.price - p.c.price)
  }

  function Earliest(ts: seq<int>): (t: int)
    requires ts != []
    ensures t in ts && forall k :: 0 <= k < |ts| ==> t <= ts[k]
  {
    if |ts| == 1 then ts[0]
    else
      var rest := Earliest(ts[1..]);
      assert rest in ts;
      if ts[0] <= rest then ts[0] else rest
  }

  function Latest(ts: seq<int>): (t: int)
    requires ts != []
    ensures t in ts && forall k :: 0 <= k < |ts| ==> ts[k] <= t
  {
    if |ts| == 1 then ts[0]
    else
      var rest := Latest(ts[1..]);
      assert rest in ts;
      if ts[0] >= rest then ts[0] else rest
  }

  /** What `peak_detect` hands back to the scan: the anchors
      (`current_idx`/`current_pat`), `start`, `end`, the moves, the peak
      table and the symbol list. */
  datatype Peaks = Peaks(anchors: Anchors, start: int, end: int, moves: Legs,
                         swings: seq<SwingPoint>, symbol: seq<string>)

  /** `argrelextrema` raises ValueError for an order below 1; on an empty
      series `min(current_idx)` raises ValueError on an empty array; indexing
      `current_pat` raises IndexError when fewer than four swings exist. */
  datatype PeakError = InvalidOrder | EmptySeries | IndexOutOfRange

  /** The tuple `peak_detect` builds from a peak table of at least four
      rows and the final bar: the last four rows as X, A, B, C, the final
      bar's time and low as D, `start`/`end` as the earliest and latest of
      the five times, and the legs between the anchors. */
  function PeaksOf(swings: seq<SwingPoint>, last: Bar, symbol: seq<string>): (pk: Peaks)
    requires |swings| >= 4
    ensures pk.swings == swings && pk.symbol == symbol
    ensures [pk.anchors.x, pk.anchors.a, pk.anchors.b, pk.anchors.c] == swings[|swings| - 4..]
    ensures pk.anchors.d == SwingPoint(last.time, last.low)
    ensures pk.moves == LegsOf(pk.anchors)
    ensures var p := pk.anchors;
      var ts := [p.x.time, p.a.time, p.b.time, p.c.time, p.d.time];
      && pk.start in ts && pk.end in ts
      && forall k :: 0 <= k < |ts| ==> pk.start <= ts[k] <= pk.end
  {
    var n := |swings|;
    var anchors := Anchors(swings[n - 4], swings[n - 3], swings[n - 2], swings[n - 1],
                           SwingPoint(last.time, last.low));
    var times := [anchors.x.time, anchors.a.time, anchors.b.time, anchors.c.time, anchors.d.time];
    assert swings[n - 4..] == [swings[n - 4], swings[n - 3], swings[n - 2], swings[n - 1]];
    Peaks(anchors, Earliest(times), Latest(times), LegsOf(anchors), swings, symbol)
  }

  /** The last four rows of a time-ordered table are in time order and end
      with its last row. */
  lemma LastFourOrdered(swings: seq<SwingPoint>)
    requires |swings| >= 4 && SortedByTime(swings)
    ensures var w := swings[|swings| - 4..];
      |w| == 4 && w[0].time <= w[1].time <= w[2].time <= w[3].time && w[3] == swings[|swings| - 1]
  {
    var n := |swings|;
    var w := swings[n - 4..];
    assert w[0] == swings[n - 4] && w[1] == swings[n - 3];
    assert w[2] == swings[n - 2] && w[3] == swings[n - 1];
  }

  /** The least and the greatest of a list in ascending order are its first
      and its last entry. */
  lemma BoundsOfOrdered(ts: seq<int>, lo: int, hi: int)
    requires |ts| == 5 && ts[0] <= ts[1] <= ts[2] <= ts[3] <= ts[4]
    requires lo in ts && hi in ts
    requires forall k :: 0 <= k < |ts| ==> lo <= ts[k] <= hi
    ensures lo == ts[0] && hi == ts[4]
  {
    var i :| 0 <= i < |ts| && ts[i] == lo;
    var j :| 0 <= j < |ts| && ts[j] == hi;
    assert ts[0] <= ts[i] && ts[j] <= ts[4];
  }

  /** When the table is in time order and its last row precedes the final
      bar, the window runs from X's time to D's time. */
  lemma PeaksOfWindow(swings: seq<SwingPoint>, last: Bar, symbol: seq<string>)
    requires |swings| >= 4 && SortedByTime(swings)
    requires swings[|swings| - 1].time < last.time
    ensures var pk := PeaksOf(swings, last, symbol);
      && pk.anchors.c.time < pk.anchors.d.time
      && pk.start == pk.anchors.x.time
      && pk.end == pk.anchors.d.time
  {
    var pk := PeaksOf(swings, last, symbol);
    var p := pk.anchors;
    var w := swings[|swings| - 4..];
    LastFourOrdered(swings);
    var four := [p.x, p.a, p.b, p.c];
    assert four == w;
    assert four[0] == p.x && four[1] == p.a && four[2] == p.b && four[3] == p.c;
    assert p.x.time <= p.a.time <= p.b.time <= p.c.time < p.d.time;
    BoundsOfOrdered([p.x.time, p.a.time, p.b.time, p.c.time, p.d.time], pk.start, pk.end);
  }

  function PeakDetect(bars: seq<Bar>, order: int): (r: Result<Peaks, PeakError>)
    ensures r == Err(InvalidOrder) <==> order < 1
    ensures r == Err(EmptySeries) <==> order >= 1 && bars == []
    ensures r == Err(IndexOutOfRange) <==> order >= 1 && bars != [] && |SwingList(bars, order)| < 4
  {
    if order < 1 then Err(InvalidOrder)
    else if bars == [] then Err(EmptySeries)
    else
      var swings := SwingList(bars, order);
      if |swings| < 4 then Err(IndexOutOfRange)
      else Ok(PeaksOf(swings, bars[|bars| - 1], Symbols(bars)))
  }

  /** On success, X, A, B, C are the four latest swings in time order, each a
      genuine swing high or low of the series, and D is the final bar's
      time and low. */
  lemma PeakDetectAnchors(bars: seq<Bar>, order: int)
    requires PeakDetect(bars, order).Ok?
    ensures var pk := PeakDetect(bars, order).value;
      var p := pk.anchors;
      var n := |pk.swings|;
      && n >= 4 && |bars| > 0
      && pk.swings == SwingList(bars, order)
      && [p.x, p.a, p.b, p.c] == pk.swings[n - 4..]
      && IsSwingPoint(bars, order, p.x) && IsSwingPoint(bars, order, p.a)
      && IsSwingPoint(bars, order, p.b) && IsSwingPoint(bars, order, p.c)
      && p.x.time <= p.a.time <= p.b.time <= p.c.time
      && (forall k :: 0 <= k < n - 4 ==> pk.swings[k].time <= p.x.time)
      && p.d == SwingPoint(bars[|bars| - 1].time, bars[|bars| - 1].low)
      && pk.moves == LegsOf(p)
      && pk.symbol == Symbols(bars)
  {
    var swings := SwingList(bars, order);
    var pk := PeaksOf(swings, bars[|bars| - 1], Symbols(bars));
    var n := |swings|;
    assert PeakDetect(bars, order).value == pk;
    assert swings[n - 4..] == [swings[n - 4], swings[n - 3], swings[n - 2], swings[n - 1]];
    SwingListSound(bars, order, swings[n - 4]);
    SwingListSound(bars, order, swings[n - 3]);
    SwingListSound(bars, order, swings[n - 2]);
    SwingListSound(bars, order, swings[n - 1]);
  }

  predicate StrictlyIncreasingTimes(bars: seq<Bar>)
  {
    forall k, l :: 0 <= k < l < |bars| ==> bars[k].time < bars[l].time
  }

  /** In a chronologically ordered series every swing is strictly earlier
      than the final bar, which can never be a swing itself. */
  lemma SwingBeforeLastBar(bars: seq<Bar>, order: int, q: SwingPoint)
    requires order >= 1
    requires StrictlyIncreasingTimes(bars)
    requires q in SwingList(bars, order)
    ensures |bars| > 0 && q.time < bars[|bars| - 1].time
  {
    SwingListSound(bars, order, q);
    var i, e :| 0 <= i < |bars| && IsExtremum(Column(bars, e), order, e, i) && q == PointAt(bars, e, i);
    assert i < |bars| - 1;
  }

  /** For a chronologically ordered series, C is strictly earlier than D,
      so the window runs from X's time to the final bar's time. */
  lemma PeakDetectWindow(bars: seq<Bar>, order: int)
    requires StrictlyIncreasingTimes(bars)
    requires PeakDetect(bars, order).Ok?
    ensures var pk := PeakDetect(bars, order).value;
      && pk.anchors.c.time < pk.anchors.d.time
      && pk.start == pk.anchors.x.time
      && pk.end == pk.anchors.d.time
  {
    var swings := SwingList(bars, order);
    var last := bars[|bars| - 1];
    assert PeakDetect(bars, order).value == PeaksOf(swings, last, Symbols(bars));
    SwingBeforeLastBar(bars, order, swings[|swings| - 1]);
    PeaksOfWindow(swings, last, Symbols(bars));
  }
}
