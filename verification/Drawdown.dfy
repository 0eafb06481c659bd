/** Sampled drawdown: a running peak over a time-sorted series, and what that number is. */
module Drawdown {
  import opened Basics

  datatype Point = Point(at: int, equity: real)

  const START_PEAK := 20_000.0

  /** The relative fall from a peak. */
  function Fall(peak: real, equity: real): real
    requires peak > 0.0
  {
    (peak - equity) / peak
  }

  function MaxDrawdown(points: seq<Point>, peak: real): real
    requires peak > 0.0
  {
    if points == [] then 0.0
    else
      var p := Max(peak, points[0].equity);
      Max(Fall(p, points[0].equity), MaxDrawdown(points[1..], p))
  }

  /** The source's running form: the worst fall so far, updated point by point. */
  function Worst(points: seq<Point>, peak: real, sofar: real): real
    requires peak > 0.0
  {
    if points == [] then sofar
    else var p := Max(peak, points[0].equity); Worst(points[1..], p, Max(sofar, Fall(p, points[0].equity)))
  }

  lemma {:induction false} WorstIsMax(points: seq<Point>, peak: real, sofar: real)
    requires peak > 0.0 && sofar >= 0.0 && NonNegative(points)
    ensures Worst(points, peak, sofar) == Max(sofar, MaxDrawdown(points, peak))
  {
    hide Fall;
    if points != [] {
      var p := Max(peak, points[0].equity);
      FallBounds(p, points[0].equity);
      WorstIsMax(points[1..], p, Max(sofar, Fall(p, points[0].equity)));
    } else {
      assert MaxDrawdown(points, peak) == 0.0;
    }
  }

  function Insert(p: Point, points: seq<Point>): seq<Point> {
    if points == [] || p.at <= points[0].at then [p] + points else [points[0]] + Insert(p, points[1..])
  }

  /** Stable sort by time: of two equal times, the earlier in the list stays earlier. */
  function SortByTime(points: seq<Point>): seq<Point> {
    if points == [] then [] else Insert(points[0], SortByTime(points[1..]))
  }

  predicate NonNegative(points: seq<Point>) {
    forall i :: 0 <= i < |points| ==> points[i].equity >= 0.0
  }

  predicate Sorted(points: seq<Point>) {
    forall i, j :: 0 <= i < j < |points| ==> points[i].at <= points[j].at
  }

  // ---- The fall

  lemma FallBounds(peak: real, equity: real)
    requires 0.0 <= equity <= peak && peak > 0.0
    ensures 0.0 <= Fall(peak, equity) <= 1.0
  {
  }

  lemma FallGrowsWithPeak(low: real, high: real, equity: real)
    requires 0.0 < low <= high && equity >= 0.0
    ensures Fall(low, equity) <= Fall(high, equity)
  {
    hide Fall;
    Rest(low, equity);
    Rest(high, equity);
    SmallerFactor(1.0 - Fall(low, equity), 1.0 - Fall(high, equity), low, high);
  }

  lemma SmallerFactor(u: real, v: real, low: real, high: real)
    requires u * low == v * high && v >= 0.0 && 0.0 < low <= high
    ensures v <= u
  {
    Times(v, u, low);
    Times(high, low, v);
  }

  lemma Rest(peak: real, equity: real)
    requires peak > 0.0 && equity >= 0.0
    ensures (1.0 - Fall(peak, equity)) * peak == equity && 1.0 - Fall(peak, equity) >= 0.0
  {
    var f := Fall(peak, equity);
    assert f * peak == peak - equity;
    if 1.0 - f < 0.0 { Times(0.0, 1.0 - f, peak); }
  }

  lemma Times(a: real, b: real, c: real)
    ensures a > b && c > 0.0 ==> a * c > b * c
    ensures a >= b && c >= 0.0 ==> a * c >= b * c && c * a >= c * b
  {
  }

  /** The drawdown is the worst fall over all pairs of a point and an earlier-or-equal peak, the peak
      never below the starting one; it lies between zero and one. */
  lemma {:induction false} DrawdownIsPeakToTrough(points: seq<Point>, peak: real)
    requires peak > 0.0 && NonNegative(points)
    ensures 0.0 <= MaxDrawdown(points, peak) <= 1.0
    ensures forall i, j :: 0 <= i <= j < |points| ==> Fall(Max(peak, points[i].equity), points[j].equity) <= MaxDrawdown(points, peak)
    ensures MaxDrawdown(points, peak) == 0.0 ||
            exists i, j :: 0 <= i <= j < |points| && Fall(Max(peak, points[i].equity), points[j].equity) == MaxDrawdown(points, peak)
  {
    hide Fall;
    if points != [] {
      var p, rest, d := Max(peak, points[0].equity), points[1..], MaxDrawdown(points, peak);
      FallBounds(p, points[0].equity);
      DrawdownIsPeakToTrough(rest, p);
      forall i, j | 0 <= i <= j < |points|
        ensures Fall(Max(peak, points[i].equity), points[j].equity) <= d
      {
        PairBelow(points, peak, i, j);
      }
      if d != 0.0 && d != Fall(p, points[0].equity) {
        var i, j :| 0 <= i <= j < |rest| && Fall(Max(p, rest[i].equity), rest[j].equity) == d;
        if Max(p, rest[i].equity) == Max(peak, rest[i].equity) {
          assert Fall(Max(peak, points[i + 1].equity), points[j + 1].equity) == d;
        } else {
          assert Fall(Max(peak, points[0].equity), points[j + 1].equity) == d;
        }
      } else if d != 0.0 {
        assert Fall(Max(peak, points[0].equity), points[0].equity) == d;
      }
    }
  }

  lemma PairBelow(points: seq<Point>, peak: real, i: nat, j: nat)
    requires peak > 0.0 && NonNegative(points) && i <= j < |points|
    requires var p := Max(peak, points[0].equity);
             forall k, l :: 0 <= k <= l < |points| - 1 ==>
               Fall(Max(p, points[1..][k].equity), points[1..][l].equity) <= MaxDrawdown(points[1..], p)
    ensures Fall(Max(peak, points[i].equity), points[j].equity) <= MaxDrawdown(points, peak)
  {
    hide Fall;
    var p, rest := Max(peak, points[0].equity), points[1..];
    if j > 0 {
      var k := if i == 0 then 0 else i - 1;
      assert rest[k] == points[k + 1] && rest[j - 1] == points[j];
      assert Fall(Max(p, rest[k].equity), rest[j - 1].equity) <= MaxDrawdown(rest, p);
      FallGrowsWithPeak(Max(peak, points[i].equity), Max(p, rest[k].equity), points[j].equity);
    }
  }

  lemma {:induction false} DrawdownGrowsWithPeak(points: seq<Point>, low: real, high: real)
    requires 0.0 < low <= high && NonNegative(points)
    ensures MaxDrawdown(points, low) <= MaxDrawdown(points, high)
  {
    hide Fall;
    if points != [] {
      DrawdownGrowsWithPeak(points[1..], Max(low, points[0].equity), Max(high, points[0].equity));
      FallGrowsWithPeak(Max(low, points[0].equity), Max(high, points[0].equity), points[0].equity);
    }
  }

  /** `b` is `a` with the point x added somewhere. */
  predicate InsertedAt(a: seq<Point>, b: seq<Point>, x: Point, k: nat) {
    k <= |a| && b == a[..k] + [x] + a[k..]
  }

  /** Adding a sample anywhere in the series never lowers the drawdown. */
  lemma {:induction false} MoreSamplesNeverLower(a: seq<Point>, b: seq<Point>, x: Point, k: nat, peak: real)
    requires peak > 0.0 && InsertedAt(a, b, x, k) && NonNegative(b)
    ensures NonNegative(a) && MaxDrawdown(a, peak) <= MaxDrawdown(b, peak)
  {
    hide Fall;
    forall i | 0 <= i < |a| ensures a[i].equity >= 0.0 {
      assert a[i] == b[if i < k then i else i + 1];
    }
    if k == 0 {
      assert b[1..] == a;
      DrawdownGrowsWithPeak(a, peak, Max(peak, x.equity));
    } else {
      assert b[0] == a[0];
      assert b[1..] == a[1..][..k - 1] + [x] + a[1..][k - 1..];
      MoreSamplesNeverLower(a[1..], b[1..], x, k - 1, Max(peak, a[0].equity));
    }
  }

  // ---- The sort

  lemma PrependSorted(first: Point, rest: seq<Point>)
    requires Sorted(rest) && forall q :: q in rest ==> first.at <= q.at
    ensures Sorted([first] + rest)
  {
    var r := [first] + rest;
    forall i, j | 0 <= i < j < |r| ensures r[i].at <= r[j].at {
      assert r[j] == rest[j - 1] && rest[j - 1] in rest;
    }
  }

  lemma HeadIsEarliest(points: seq<Point>)
    requires Sorted(points) && points != []
    ensures forall q :: q in points ==> points[0].at <= q.at
    ensures Sorted(points[1..])
    ensures forall q :: q in points <==> q == points[0] || q in points[1..]
  {
    forall q | q in points ensures points[0].at <= q.at {
      var i :| 0 <= i < |points| && points[i] == q;
    }
    assert points == [points[0]] + points[1..];
  }

  lemma {:induction false} InsertKeepsSorted(p: Point, points: seq<Point>)
    requires Sorted(points)
    ensures Sorted(Insert(p, points))
    ensures forall q :: q in Insert(p, points) <==> q == p || q in points
  {
    hide Sorted;
    if points != [] {
      HeadIsEarliest(points);
      if p.at > points[0].at {
        InsertKeepsSorted(p, points[1..]);
        PrependSorted(points[0], Insert(p, points[1..]));
      } else {
        PrependSorted(p, points);
      }
    } else {
      PrependSorted(p, points);
    }
  }

  lemma {:induction false} SortSorts(points: seq<Point>)
    ensures Sorted(SortByTime(points))
    ensures forall q :: q in SortByTime(points) <==> q in points
  {
    if points != [] {
      SortSorts(points[1..]);
      InsertKeepsSorted(points[0], SortByTime(points[1..]));
      assert points == [points[0]] + points[1..];
    }
  }

  /** Where a stable insertion lands: before the first point that is not strictly earlier. */
  lemma {:induction false} InsertPosition(p: Point, points: seq<Point>) returns (m: nat)
    ensures InsertedAt(points, Insert(p, points), p, m)
    ensures forall i :: 0 <= i < m ==> points[i].at < p.at
    ensures m < |points| ==> p.at <= points[m].at
  {
    if points == [] || p.at <= points[0].at {
      m := 0;
    } else {
      m := InsertPosition(p, points[1..]);
      m := m + 1;
    }
  }

  lemma InsertIsDetermined(p: Point, points: seq<Point>, m: nat)
    requires m <= |points| && (forall i :: 0 <= i < m ==> points[i].at < p.at) && (m < |points| ==> p.at <= points[m].at)
    ensures Insert(p, points) == points[..m] + [p] + points[m..]
  {
    var k := InsertPosition(p, points);
    assert !(k < m) && !(m < k);
  }

  /** Two insertions into one series, in either order: y at m, and x at k, with m not after k. */
  lemma TwoInsertions(a: seq<Point>, x: Point, y: Point, k: nat, m: nat)
    requires m <= k <= |a|
    ensures var ax, ay := a[..k] + [x] + a[k..], a[..m] + [y] + a[m..];
            ax[..m] + [y] + ax[m..] == ay[..k + 1] + [x] + ay[k + 1..]
  {
    var ax, ay := a[..k] + [x] + a[k..], a[..m] + [y] + a[m..];
    assert ax[..m] + [y] + ax[m..] == a[..m] + [y] + a[m..k] + [x] + a[k..];
    assert ay[..k + 1] + [x] + ay[k + 1..] == a[..m] + [y] + a[m..k] + [x] + a[k..];
  }

  /** The point p goes before x. */
  lemma InsertBefore(p: Point, a: seq<Point>, b: seq<Point>, x: Point, k: nat, m: nat)
    requires InsertedAt(a, b, x, k) && m <= k && Insert(p, a) == a[..m] + [p] + a[m..]
    requires (forall i :: 0 <= i < m ==> a[i].at < p.at)
    requires if m < k then p.at <= a[m].at else p.at <= x.at
    ensures InsertedAt(Insert(p, a), Insert(p, b), x, k + 1)
  {
    forall i | 0 <= i < m ensures b[i].at < p.at { assert b[i] == a[i]; }
    assert b[m] == if m < k then a[m] else x;
    InsertIsDetermined(p, b, m);
    TwoInsertions(a, x, p, k, m);
  }

  /** The point p goes after x. */
  lemma InsertAfter(p: Point, a: seq<Point>, b: seq<Point>, x: Point, k: nat, m: nat)
    requires InsertedAt(a, b, x, k) && k <= m <= |a| && Insert(p, a) == a[..m] + [p] + a[m..]
    requires (forall i :: 0 <= i < m ==> a[i].at < p.at) && (m < |a| ==> p.at <= a[m].at)
    requires x.at < p.at
    ensures InsertedAt(Insert(p, a), Insert(p, b), x, k)
  {
    forall i | 0 <= i < m + 1 ensures b[i].at < p.at {
      assert b[i] == if i < k then a[i] else if i == k then x else a[i - 1];
    }
    assert m + 1 < |b| ==> b[m + 1] == a[m];
    InsertIsDetermined(p, b, m + 1);
    TwoInsertions(a, p, x, m, k);
  }

  /** Inserting one point into two series that differ by x leaves them differing by x. */
  lemma InsertCommutes(p: Point, a: seq<Point>, b: seq<Point>, x: Point, k: nat) returns (k': nat)
    requires Sorted(b) && InsertedAt(a, b, x, k)
    ensures InsertedAt(Insert(p, a), Insert(p, b), x, k')
  {
    var m := InsertPosition(p, a);
    if m < k || (m == k && p.at <= x.at) {
      InsertBefore(p, a, b, x, k, m);
      k' := k + 1;
    } else {
      if m > k {
        assert b[k] == x && b[k + 1] == a[k];
      }
      InsertAfter(p, a, b, x, k, m);
      k' := k;
    }
  }

  /** Adding one sample to the unsorted list adds it at one place of the sorted series. */
  lemma {:induction false} SortAfterInsertion(a: seq<Point>, b: seq<Point>, x: Point, k: nat) returns (k': nat)
    requires InsertedAt(a, b, x, k)
    ensures InsertedAt(SortByTime(a), SortByTime(b), x, k')
  {
    if k == 0 {
      assert b[1..] == a;
      k' := InsertPosition(x, SortByTime(a));
    } else {
      assert b[0] == a[0] && b[1..] == a[1..][..k - 1] + [x] + a[1..][k - 1..];
      var j := SortAfterInsertion(a[1..], b[1..], x, k - 1);
      SortSorts(b[1..]);
      k' := InsertCommutes(a[0], SortByTime(a[1..]), SortByTime(b[1..]), x, j);
    }
  }

  /** One more sample, anywhere in the recorded order, never lowers the drawdown of the sorted series. */
  lemma DrawdownNeverDecreases(a: seq<Point>, b: seq<Point>, x: Point, k: nat)
    requires InsertedAt(a, b, x, k) && NonNegative(b)
    ensures MaxDrawdown(SortByTime(a), START_PEAK) <= MaxDrawdown(SortByTime(b), START_PEAK)
  {
    var j := SortAfterInsertion(a, b, x, k);
    SortKeepsNonNegative(b);
    MoreSamplesNeverLower(SortByTime(a), SortByTime(b), x, j, START_PEAK);
  }

  lemma SortKeepsNonNegative(points: seq<Point>)
    requires NonNegative(points)
    ensures NonNegative(SortByTime(points))
  {
    SortSorts(points);
    var r := SortByTime(points);
    forall i | 0 <= i < |r| ensures r[i].equity >= 0.0 {
      assert r[i] in r;
      var j :| 0 <= j < |points| && points[j] == r[i];
    }
  }
}
