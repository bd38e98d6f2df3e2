/**
  The Zig Zag indicator of Highstock (`zigzag.src.js`, `getValues`): a
  seeding scan that fixes the first pivot and the starting direction, a
  tracking scan that extends a pending candidate extremum and emits it when
  the price reverses by the deviation factor, and a tail rule that appends
  the pending candidate.
 */
module ZigZag {
  import opened Indicators

  /** `params`: the row fields holding the low and the high, and the deviation in percent. */
  datatype Params = Params(lowIndex: nat, highIndex: nat, deviation: real)

  /** `deviations.low`: the factor a low must be multiplied by to confirm a rise. */
  function LowDeviation(p: Params): real
  {
    1.0 + p.deviation / 100.0
  }

  /** `deviations.high`: the factor a high must be multiplied by to confirm a fall. */
  function HighDeviation(p: Params): real
  {
    1.0 - p.deviation / 100.0
  }

  /** The level a rise from y has to reach: y * (1 + deviation/100). */
  function RiseLevel(y: real, p: Params): real
  {
    y * LowDeviation(p)
  }

  /** The level a fall from y has to reach: y * (1 - deviation/100). */
  function DropLevel(y: real, p: Params): real
  {
    y * HighDeviation(p)
  }

  /**
    What the host framework guarantees and the source relies on without
    checking: one row per timestamp, and the low and high fields present in
    every row after the first (the first is checked).
   */
  predicate WellFormed(xVal: seq<real>, yVal: seq<seq<real>>, p: Params)
  {
    && |yVal| == |xVal|
    && forall i :: 1 <= i < |yVal| ==> p.lowIndex < |yVal[i]| && p.highIndex < |yVal[i]|
  }

  /** The guard that makes `getValues` return `false`. */
  predicate Fails(xVal: seq<real>, yVal: seq<seq<real>>, p: Params)
  {
    || |xVal| <= 1
    || (|yVal| > 0 && (p.lowIndex >= |yVal[0]| || p.highIndex >= |yVal[0]|))
  }

  /** Inputs past the guard: at least two rows, all with both fields. */
  predicate Ready(xVal: seq<real>, yVal: seq<seq<real>>, p: Params)
  {
    && |yVal| == |xVal| >= 2
    && forall i :: 0 <= i < |yVal| ==> p.lowIndex < |yVal[i]| && p.highIndex < |yVal[i]|
  }

  lemma PastGuard(xVal: seq<real>, yVal: seq<seq<real>>, p: Params)
    requires WellFormed(xVal, yVal, p) && !Fails(xVal, yVal, p)
    ensures Ready(xVal, yVal, p)
  {
  }

  function Low(xVal: seq<real>, yVal: seq<seq<real>>, p: Params, i: nat): real
    requires Ready(xVal, yVal, p) && i < |yVal|
  {
    yVal[i][p.lowIndex]
  }

  function High(xVal: seq<real>, yVal: seq<seq<real>>, p: Params, i: nat): real
    requires Ready(xVal, yVal, p) && i < |yVal|
  {
    yVal[i][p.highIndex]
  }

  /** The high field of row i when `high`, else its low field. */
  function Field(xVal: seq<real>, yVal: seq<seq<real>>, p: Params, i: nat, high: bool): real
    requires Ready(xVal, yVal, p) && i < |yVal|
  {
    if high then High(xVal, yVal, p, i) else Low(xVal, yVal, p, i)
  }

  /** Row i's low is far enough below row 0's high to go down. */
  predicate Drops(xVal: seq<real>, yVal: seq<seq<real>>, p: Params, i: nat)
    requires Ready(xVal, yVal, p) && i < |yVal|
  {
    Low(xVal, yVal, p, i) <= DropLevel(High(xVal, yVal, p, 0), p)
  }

  /** Row i's high is far enough above row 0's low to go up. */
  predicate Rises(xVal: seq<real>, yVal: seq<seq<real>>, p: Params, i: nat)
    requires Ready(xVal, yVal, p) && i < |yVal|
  {
    High(xVal, yVal, p, i) >= RiseLevel(Low(xVal, yVal, p, 0), p)
  }

  predicate Breaks(xVal: seq<real>, yVal: seq<seq<real>>, p: Params, i: nat)
    requires Ready(xVal, yVal, p) && i < |yVal|
  {
    Drops(xVal, yVal, p, i) || Rises(xVal, yVal, p, i)
  }

  /** The first breakpoint at or after `from`, if any. */
  function FirstBreak(xVal: seq<real>, yVal: seq<seq<real>>, p: Params, from: nat): (r: Option<nat>)
    requires Ready(xVal, yVal, p) && from <= |yVal|
    ensures r.Some? ==> from <= r.value < |yVal| && Breaks(xVal, yVal, p, r.value)
    ensures r.Some? ==> forall k :: from <= k < r.value ==> !Breaks(xVal, yVal, p, k)
    ensures r.None? ==> forall k :: from <= k < |yVal| ==> !Breaks(xVal, yVal, p, k)
    decreases |yVal| - from
  {
    if from == |yVal| then None
    else if Breaks(xVal, yVal, p, from) then Some(from)
    else FirstBreak(xVal, yVal, p, from + 1)
  }

  /** A zigzag point `[xVal[at], y]`, with the row it was taken from. */
  datatype Pivot = Pivot(at: nat, x: real, y: real)

  /** The scan state: emitted pivots, the pending candidate, and `directionUp`. */
  datatype Tracker = Tracker(pivots: seq<Pivot>, cand: Pivot, up: bool)

  function PivotAt(xVal: seq<real>, i: nat, y: real): (v: Pivot)
    requires i < |xVal|
    ensures v.at == i && v.x == xVal[i] && v.y == y
  {
    Pivot(i, xVal[i], y)
  }

  /**
    The state the seeding scan leaves at breakpoint j. The low test comes
    first: going down emits row 0's high, the candidate is row j's low and
    the next line goes up; otherwise row 0's low is emitted, the candidate is
    row j's high and the next line goes down.
   */
  function Seed(xVal: seq<real>, yVal: seq<seq<real>>, p: Params, j: nat): Tracker
    requires Ready(xVal, yVal, p) && j < |yVal|
  {
    if Drops(xVal, yVal, p, j) then
      Tracker([PivotAt(xVal, 0, High(xVal, yVal, p, 0))], PivotAt(xVal, j, Low(xVal, yVal, p, j)), true)
    else
      Tracker([PivotAt(xVal, 0, Low(xVal, yVal, p, 0))], PivotAt(xVal, j, High(xVal, yVal, p, j)), false)
  }

  /**
    The candidate after row i's extension test: going up, a low at or below
    the candidate replaces it; going down, a high at or above it.
   */
  function Extended(xVal: seq<real>, yVal: seq<seq<real>>, p: Params, t: Tracker, i: nat): (v: Pivot)
    requires Ready(xVal, yVal, p) && i < |yVal|
    ensures v == t.cand || (v.at == i && v.x == xVal[i] && v.y == Field(xVal, yVal, p, i, !t.up))
    ensures t.up ==> v.y <= t.cand.y
    ensures !t.up ==> v.y >= t.cand.y
    ensures t.up && Low(xVal, yVal, p, i) <= t.cand.y ==> v == PivotAt(xVal, i, Low(xVal, yVal, p, i))
    ensures !t.up && High(xVal, yVal, p, i) >= t.cand.y ==> v == PivotAt(xVal, i, High(xVal, yVal, p, i))
  {
    if t.up then
      if Low(xVal, yVal, p, i) <= t.cand.y then PivotAt(xVal, i, Low(xVal, yVal, p, i)) else t.cand
    else
      if High(xVal, yVal, p, i) >= t.cand.y then PivotAt(xVal, i, High(xVal, yVal, p, i)) else t.cand
  }

  /** Row i reverses the trend, measured against the already extended candidate. */
  predicate Reverses(xVal: seq<real>, yVal: seq<seq<real>>, p: Params, t: Tracker, i: nat)
    requires Ready(xVal, yVal, p) && i < |yVal|
  {
    var c := Extended(xVal, yVal, p, t, i);
    if t.up then High(xVal, yVal, p, i) >= RiseLevel(c.y, p)
    else Low(xVal, yVal, p, i) <= DropLevel(c.y, p)
  }

  /** The reversal test, stated on the extended candidate's value y. */
  lemma ReversalTest(xVal: seq<real>, yVal: seq<seq<real>>, p: Params, t: Tracker, i: nat, y: real)
    requires Ready(xVal, yVal, p) && i < |yVal| && y == Extended(xVal, yVal, p, t, i).y
    ensures t.up ==> (Reverses(xVal, yVal, p, t, i) <==> yVal[i][p.highIndex] >= RiseLevel(y, p))
    ensures !t.up ==> (Reverses(xVal, yVal, p, t, i) <==> yVal[i][p.lowIndex] <= DropLevel(y, p))
  {
  }

  /**
    One iteration of the tracking loop at row i: the extension test, then
    the reversal test on the updated candidate, which emits it, starts a new
    candidate at row i's opposite field and flips the direction.
   */
  function Step(xVal: seq<real>, yVal: seq<seq<real>>, p: Params, t: Tracker, i: nat): Tracker
    requires Ready(xVal, yVal, p) && i < |yVal|
  {
    var c := Extended(xVal, yVal, p, t, i);
    if Reverses(xVal, yVal, p, t, i) then
      Tracker(t.pivots + [c], PivotAt(xVal, i, Field(xVal, yVal, p, i, t.up)), !t.up)
    else
      Tracker(t.pivots, c, t.up)
  }

  /** The tracking loop over rows lo .. hi-1, starting from state t. */
  function Track(xVal: seq<real>, yVal: seq<seq<real>>, p: Params, t: Tracker, lo: nat, hi: nat): Tracker
    requires Ready(xVal, yVal, p) && lo <= hi <= |yVal|
    decreases hi - lo
  {
    if lo == hi then t
    else Track(xVal, yVal, p, Step(xVal, yVal, p, t, lo), lo + 1, hi)
  }

  /** The tail rule: append the candidate if the last pivot is before the last timestamp. */
  function WithTail(t: Tracker, lastX: real): seq<Pivot>
  {
    if |t.pivots| != 0 && t.pivots[|t.pivots| - 1].x < lastX then t.pivots + [t.cand] else t.pivots
  }

  /** The state after the tracking scan, when seeding found breakpoint j. */
  function Tracked(xVal: seq<real>, yVal: seq<seq<real>>, p: Params, j: nat): Tracker
    requires Ready(xVal, yVal, p) && j < |yVal|
  {
    Track(xVal, yVal, p, Seed(xVal, yVal, p, j), j, |yVal|)
  }

  /** All emitted pivots of a ready input; none when there is no breakpoint. */
  function Pivots(xVal: seq<real>, yVal: seq<seq<real>>, p: Params): seq<Pivot>
    requires Ready(xVal, yVal, p)
  {
    match FirstBreak(xVal, yVal, p, 1)
    case None => []
    case Some(j) => WithTail(Tracked(xVal, yVal, p, j), xVal[|xVal| - 1])
  }

  /** The three output views of a pivot list. */
  function SeriesOf(ps: seq<Pivot>): (s: Series)
    ensures Aligned(s) && |s.xData| == |ps|
    ensures forall k :: 0 <= k < |ps| ==> s.xData[k] == ps[k].x && s.yData[k] == ps[k].y
    decreases |ps|
  {
    if ps == [] then Empty
    else Push(SeriesOf(ps[..|ps| - 1]), ps[|ps| - 1].x, ps[|ps| - 1].y)
  }

  lemma SeriesSnoc(ps: seq<Pivot>, v: Pivot)
    ensures SeriesOf(ps + [v]) == Push(SeriesOf(ps), v.x, v.y)
  {
    assert (ps + [v])[..|ps|] == ps;
  }

  lemma SingleSeries(v: Pivot)
    ensures SeriesOf([v]) == Series([(v.x, v.y)], [v.x], [v.y])
  {
    assert [v][..0] == [];
  }

  lemma SeriesLast(ps: seq<Pivot>)
    ensures |SeriesOf(ps).values| == |ps|
    ensures |ps| > 0 ==> SeriesOf(ps).values[|ps| - 1].0 == ps[|ps| - 1].x
  {
  }

  /** What `getValues` returns. */
  function ZigZag(xVal: seq<real>, yVal: seq<seq<real>>, p: Params): (r: Option<Series>)
    requires WellFormed(xVal, yVal, p)
    ensures r.None? <==> Fails(xVal, yVal, p)
    ensures r.Some? ==> Aligned(r.value)
  {
    if Fails(xVal, yVal, p) then None
    else
      PastGuard(xVal, yVal, p);
      Some(SeriesOf(Pivots(xVal, yVal, p)))
  }

  /** Whether the first pivot is row 0's high (the seeding low test fired). */
  function StartsHigh(xVal: seq<real>, yVal: seq<seq<real>>, p: Params): bool
    requires Ready(xVal, yVal, p)
  {
    match FirstBreak(xVal, yVal, p, 1)
    case None => false
    case Some(j) => Drops(xVal, yVal, p, j)
  }

  // ---------------------------------------------------------------------
  // Invariants of the tracking scan

  /** Pivot k plays the role of a high (else a low); the roles alternate. */
  function HighRole(k: nat, startsHigh: bool): bool
  {
    (k % 2 == 0) == startsHigh
  }

  /**
    Consecutive pivot values move by at least the deviation, alternately
    down from a high and up from a low.
   */
  predicate Swings(ys: seq<real>, p: Params, startsHigh: bool)
  {
    forall k :: 0 <= k < |ys| - 1 ==> Leg(ys[k], ys[k + 1], p, HighRole(k, startsHigh))
  }

  /** One leg: down from a high by the deviation factor, or up from a low by it. */
  predicate Leg(a: real, b: real, p: Params, high: bool)
  {
    if high then b <= DropLevel(a, p) else b >= RiseLevel(a, p)
  }

  lemma SwingsSnoc(ys: seq<real>, v: real, p: Params, sh: bool)
    requires Swings(ys, p, sh) && |ys| >= 1 && Leg(ys[|ys| - 1], v, p, HighRole(|ys| - 1, sh))
    ensures Swings(ys + [v], p, sh)
  {
    var zs := ys + [v];
    assert forall k :: 0 <= k < |ys| ==> zs[k] == ys[k];
  }

  function Values(ps: seq<Pivot>): (ys: seq<real>)
    ensures |ys| == |ps| && forall k :: 0 <= k < |ps| ==> ys[k] == ps[k].y
  {
    seq(|ps|, k requires 0 <= k < |ps| => ps[k].y)
  }

  lemma ValuesSnoc(ps: seq<Pivot>, c: Pivot)
    ensures Values(ps + [c]) == Values(ps) + [c.y]
  {
    var zs := ps + [c];
    assert forall k :: 0 <= k < |ps| ==> zs[k] == ps[k];
  }

  /** Where pivots sit: rows of the input, the first at row 0, the rest at or after j, in row order. */
  ghost predicate Placed(xVal: seq<real>, t: Tracker, j: nat, i: nat)
  {
    && |t.pivots| >= 1
    && t.pivots[0].at == 0
    && (forall k :: 0 <= k < |t.pivots| ==> t.pivots[k].at < |xVal| && t.pivots[k].x == xVal[t.pivots[k].at])
    && (forall k :: 1 <= k < |t.pivots| ==> j <= t.pivots[k].at)
    && (forall k :: 0 <= k < |t.pivots| - 1 ==> t.pivots[k].at <= t.pivots[k + 1].at)
    && j <= t.cand.at <= i && t.cand.at < |xVal| && t.cand.x == xVal[t.cand.at]
    && t.pivots[|t.pivots| - 1].at <= t.cand.at
  }

  /** What pivots are: each the high or the low of its row, by alternating role; the candidate likewise. */
  ghost predicate Roles(xVal: seq<real>, yVal: seq<seq<real>>, p: Params, t: Tracker, startsHigh: bool)
    requires Ready(xVal, yVal, p)
  {
    && |t.pivots| >= 1
    && t.up == HighRole(|t.pivots| - 1, startsHigh)
    && (forall k :: 0 <= k < |t.pivots| ==>
          t.pivots[k].at < |yVal| && t.pivots[k].y == Field(xVal, yVal, p, t.pivots[k].at, HighRole(k, startsHigh)))
    && t.cand.at < |yVal| && t.cand.y == Field(xVal, yVal, p, t.cand.at, !t.up)
  }

  /** The deviation floor between pivots, and from the last pivot to the candidate. */
  ghost predicate Swinging(p: Params, t: Tracker, startsHigh: bool)
  {
    && |t.pivots| >= 1
    && t.up == HighRole(|t.pivots| - 1, startsHigh)
    && Swings(Values(t.pivots), p, startsHigh)
    && Leg(t.pivots[|t.pivots| - 1].y, t.cand.y, p, t.up)
  }

  lemma SeedPlaced(xVal: seq<real>, yVal: seq<seq<real>>, p: Params, j: nat)
    requires Ready(xVal, yVal, p) && 1 <= j < |yVal| && Breaks(xVal, yVal, p, j)
    ensures Placed(xVal, Seed(xVal, yVal, p, j), j, j)
  {
  }

  lemma SeedRoles(xVal: seq<real>, yVal: seq<seq<real>>, p: Params, j: nat)
    requires Ready(xVal, yVal, p) && 1 <= j < |yVal| && Breaks(xVal, yVal, p, j)
    ensures Roles(xVal, yVal, p, Seed(xVal, yVal, p, j), Drops(xVal, yVal, p, j))
  {
  }

  lemma SeedSwinging(xVal: seq<real>, yVal: seq<seq<real>>, p: Params, j: nat)
    requires Ready(xVal, yVal, p) && 1 <= j < |yVal| && Breaks(xVal, yVal, p, j)
    ensures Swinging(p, Seed(xVal, yVal, p, j), Drops(xVal, yVal, p, j))
  {
  }

  lemma StepPlaced(xVal: seq<real>, yVal: seq<seq<real>>, p: Params, t: Tracker, j: nat, i: nat)
    requires Ready(xVal, yVal, p) && i < |yVal| && Placed(xVal, t, j, i)
    ensures Placed(xVal, Step(xVal, yVal, p, t, i), j, i + 1)
  {
    var c := Extended(xVal, yVal, p, t, i);
    if Reverses(xVal, yVal, p, t, i) {
      var ps := t.pivots + [c];
      assert forall k :: 0 <= k < |t.pivots| ==> ps[k] == t.pivots[k];
    }
  }

  lemma StepRoles(xVal: seq<real>, yVal: seq<seq<real>>, p: Params, t: Tracker, i: nat, startsHigh: bool)
    requires Ready(xVal, yVal, p) && i < |yVal| && Roles(xVal, yVal, p, t, startsHigh)
    ensures Roles(xVal, yVal, p, Step(xVal, yVal, p, t, i), startsHigh)
  {
    var c := Extended(xVal, yVal, p, t, i);
    assert c.at < |yVal| && c.y == Field(xVal, yVal, p, c.at, !t.up);
    if Reverses(xVal, yVal, p, t, i) {
      var n := |t.pivots|;
      var ps := t.pivots + [c];
      assert HighRole(n, startsHigh) == !t.up;
      assert forall k :: 0 <= k < n ==> ps[k] == t.pivots[k];
    }
  }

  lemma StepSwinging(xVal: seq<real>, yVal: seq<seq<real>>, p: Params, t: Tracker, i: nat, startsHigh: bool)
    requires Ready(xVal, yVal, p) && i < |yVal| && Swinging(p, t, startsHigh)
    ensures Swinging(p, Step(xVal, yVal, p, t, i), startsHigh)
  {
    var n := |t.pivots|;
    var c := Extended(xVal, yVal, p, t, i);
    // the extension only moves the candidate further from the last pivot
    assert Leg(t.pivots[n - 1].y, c.y, p, t.up);
    if Reverses(xVal, yVal, p, t, i) {
      ValuesSnoc(t.pivots, c);
      SwingsSnoc(Values(t.pivots), c.y, p, startsHigh);
      assert HighRole(n, startsHigh) == !t.up;
      assert (t.pivots + [c])[n] == c;
    }
  }

  /** Placement is kept by the tracking loop. */
  lemma {:induction false} TrackPlaced(xVal: seq<real>, yVal: seq<seq<real>>, p: Params, t: Tracker, j: nat, lo: nat, hi: nat)
    requires Ready(xVal, yVal, p) && lo <= hi <= |yVal| && Placed(xVal, t, j, lo)
    ensures Placed(xVal, Track(xVal, yVal, p, t, lo, hi), j, hi)
    decreases hi - lo
  {
    if lo != hi {
      StepPlaced(xVal, yVal, p, t, j, lo);
      TrackPlaced(xVal, yVal, p, Step(xVal, yVal, p, t, lo), j, lo + 1, hi);
    }
  }

  /** Alternating roles are kept by the tracking loop. */
  lemma {:induction false} TrackRoles(xVal: seq<real>, yVal: seq<seq<real>>, p: Params, t: Tracker, sh: bool, lo: nat, hi: nat)
    requires Ready(xVal, yVal, p) && lo <= hi <= |yVal| && Roles(xVal, yVal, p, t, sh)
    ensures Roles(xVal, yVal, p, Track(xVal, yVal, p, t, lo, hi), sh)
    decreases hi - lo
  {
    if lo != hi {
      StepRoles(xVal, yVal, p, t, lo, sh);
      TrackRoles(xVal, yVal, p, Step(xVal, yVal, p, t, lo), sh, lo + 1, hi);
    }
  }

  /** The deviation floor is kept by the tracking loop. */
  lemma {:induction false} TrackSwinging(xVal: seq<real>, yVal: seq<seq<real>>, p: Params, t: Tracker, sh: bool, lo: nat, hi: nat)
    requires Ready(xVal, yVal, p) && lo <= hi <= |yVal| && Swinging(p, t, sh)
    ensures Swinging(p, Track(xVal, yVal, p, t, lo, hi), sh)
    decreases hi - lo
  {
    if lo != hi {
      StepSwinging(xVal, yVal, p, t, lo, sh);
      TrackSwinging(xVal, yVal, p, Step(xVal, yVal, p, t, lo), sh, lo + 1, hi);
    }
  }

  /** The three invariants hold at the end of the tracking loop. */
  lemma TrackInvariants(xVal: seq<real>, yVal: seq<seq<real>>, p: Params, j: nat)
    requires Ready(xVal, yVal, p) && 1 <= j < |yVal| && Breaks(xVal, yVal, p, j)
    ensures var t := Tracked(xVal, yVal, p, j);
            var sh := Drops(xVal, yVal, p, j);
            Placed(xVal, t, j, |yVal|) && Roles(xVal, yVal, p, t, sh) && Swinging(p, t, sh)
  {
    var sh := Drops(xVal, yVal, p, j);
    var s := Seed(xVal, yVal, p, j);
    SeedPlaced(xVal, yVal, p, j);
    SeedRoles(xVal, yVal, p, j);
    SeedSwinging(xVal, yVal, p, j);
    TrackPlaced(xVal, yVal, p, s, j, j, |yVal|);
    TrackRoles(xVal, yVal, p, s, sh, j, |yVal|);
    TrackSwinging(xVal, yVal, p, s, sh, j, |yVal|);
  }

  // ---------------------------------------------------------------------
  // Properties of the output

  /** The pivot list is empty exactly when no row from 1 on is a breakpoint. */
  lemma PivotsEmpty(xVal: seq<real>, yVal: seq<seq<real>>, p: Params)
    requires Ready(xVal, yVal, p)
    ensures Pivots(xVal, yVal, p) == [] <==> forall k :: 1 <= k < |yVal| ==> !Breaks(xVal, yVal, p, k)
  {
    match FirstBreak(xVal, yVal, p, 1)
    case None =>
    case Some(j) =>
      TrackInvariants(xVal, yVal, p, j);
  }

  /**
    Past the guard, the output is three empty arrays (not `false`) exactly
    when no row from 1 on crosses either threshold of row 0.
   */
  lemma EmptyWithoutBreakpoint(xVal: seq<real>, yVal: seq<seq<real>>, p: Params)
    requires WellFormed(xVal, yVal, p) && !Fails(xVal, yVal, p)
    ensures Ready(xVal, yVal, p)
    ensures ZigZag(xVal, yVal, p) == Some(Empty)
            <==> forall k :: 1 <= k < |yVal| ==> !Breaks(xVal, yVal, p, k)
  {
    PastGuard(xVal, yVal, p);
    PivotsEmpty(xVal, yVal, p);
    var s := SeriesOf(Pivots(xVal, yVal, p));
    if |s.xData| == 0 {
      assert s == Empty;
    }
  }

  /**
    Seeding: at the first breakpoint j the low test wins. The first output
    point is row 0's high when row j's low fell far enough, else row 0's low,
    at timestamp xVal[0], and all later pivots come from rows j or later.
   */
  lemma FirstPivot(xVal: seq<real>, yVal: seq<seq<real>>, p: Params, j: nat)
    requires WellFormed(xVal, yVal, p) && !Fails(xVal, yVal, p)
    requires 1 <= j < |yVal|
    requires Ready(xVal, yVal, p) && Breaks(xVal, yVal, p, j)
    requires forall k :: 1 <= k < j ==> !Breaks(xVal, yVal, p, k)
    ensures StartsHigh(xVal, yVal, p) == Drops(xVal, yVal, p, j)
    ensures var s := ZigZag(xVal, yVal, p).value;
            && |s.xData| >= 1 && s.xData[0] == xVal[0]
            && s.yData[0] == (if Drops(xVal, yVal, p, j) then High(xVal, yVal, p, 0) else Low(xVal, yVal, p, 0))
    ensures forall k :: 1 <= k < |Pivots(xVal, yVal, p)| ==> j <= Pivots(xVal, yVal, p)[k].at
  {
    FirstBreakIs(xVal, yVal, p, 1, j);
    TrackInvariants(xVal, yVal, p, j);
  }

  lemma {:induction false} FirstBreakIs(xVal: seq<real>, yVal: seq<seq<real>>, p: Params, from: nat, j: nat)
    requires Ready(xVal, yVal, p) && from <= j < |yVal| && Breaks(xVal, yVal, p, j)
    requires forall k :: from <= k < j ==> !Breaks(xVal, yVal, p, k)
    ensures FirstBreak(xVal, yVal, p, from) == Some(j)
    decreases j - from
  {
    if from < j {
      FirstBreakIs(xVal, yVal, p, from + 1, j);
    }
  }

  /** The tracked pivots, with the candidate appended or not. */
  lemma PivotsShape(xVal: seq<real>, yVal: seq<seq<real>>, p: Params, j: nat)
    requires Ready(xVal, yVal, p) && FirstBreak(xVal, yVal, p, 1) == Some(j)
    ensures var t := Tracked(xVal, yVal, p, j);
            Pivots(xVal, yVal, p) == t.pivots || Pivots(xVal, yVal, p) == t.pivots + [t.cand]
  {
  }

  /** The deviation floor carries over to the final pivot list, tail included. */
  lemma PivotsSwing(xVal: seq<real>, yVal: seq<seq<real>>, p: Params)
    requires Ready(xVal, yVal, p)
    ensures Swings(Values(Pivots(xVal, yVal, p)), p, StartsHigh(xVal, yVal, p))
  {
    match FirstBreak(xVal, yVal, p, 1)
    case None =>
    case Some(j) =>
      TrackInvariants(xVal, yVal, p, j);
      PivotsShape(xVal, yVal, p, j);
      var t := Tracked(xVal, yVal, p, j);
      if Pivots(xVal, yVal, p) != t.pivots {
        ValuesSnoc(t.pivots, t.cand);
        SwingsSnoc(Values(t.pivots), t.cand.y, p, Drops(xVal, yVal, p, j));
      }
  }

  /** Where the final pivots sit: in the input's rows, the first at row 0, in row order. */
  lemma PivotsAt(xVal: seq<real>, yVal: seq<seq<real>>, p: Params)
    requires Ready(xVal, yVal, p)
    ensures var ps := Pivots(xVal, yVal, p);
            && (forall k :: 0 <= k < |ps| ==> ps[k].at < |xVal| && ps[k].x == xVal[ps[k].at])
            && (|ps| > 0 ==> ps[0].at == 0)
            && (forall k :: 1 <= k < |ps| ==> 1 <= ps[k].at)
            && (forall k :: 0 <= k < |ps| - 1 ==> ps[k].at <= ps[k + 1].at)
  {
    match FirstBreak(xVal, yVal, p, 1)
    case None =>
    case Some(j) =>
      var s := Seed(xVal, yVal, p, j);
      SeedPlaced(xVal, yVal, p, j);
      TrackPlaced(xVal, yVal, p, s, j, j, |yVal|);
      PivotsShape(xVal, yVal, p, j);
      var t := Tracked(xVal, yVal, p, j);
      var ps := Pivots(xVal, yVal, p);
      if ps != t.pivots {
        assert forall k :: 0 <= k < |t.pivots| ==> ps[k] == t.pivots[k];
        assert ps[|t.pivots|] == t.cand;
      }
  }

  /** Which field each final pivot is: the high or the low of its row, by alternating role. */
  lemma PivotsFields(xVal: seq<real>, yVal: seq<seq<real>>, p: Params)
    requires Ready(xVal, yVal, p)
    ensures var ps := Pivots(xVal, yVal, p);
            forall k :: 0 <= k < |ps| ==>
              ps[k].at < |yVal| && ps[k].y == Field(xVal, yVal, p, ps[k].at, HighRole(k, StartsHigh(xVal, yVal, p)))
  {
    match FirstBreak(xVal, yVal, p, 1)
    case None =>
    case Some(j) =>
      var s := Seed(xVal, yVal, p, j);
      var sh := Drops(xVal, yVal, p, j);
      SeedRoles(xVal, yVal, p, j);
      TrackRoles(xVal, yVal, p, s, sh, j, |yVal|);
      PivotsShape(xVal, yVal, p, j);
      var t := Tracked(xVal, yVal, p, j);
      var ps := Pivots(xVal, yVal, p);
      if ps != t.pivots {
        assert HighRole(|t.pivots|, sh) == !t.up;
        assert forall k :: 0 <= k < |t.pivots| ==> ps[k] == t.pivots[k];
        assert ps[|t.pivots|] == t.cand;
      }
  }

  /**
    Alternation and the deviation floor on the output values: after a
    high-role point the next is at most that value times (1 - deviation/100),
    after a low-role point at least that value times (1 + deviation/100);
    the tail point obeys it as well.
   */
  lemma OutputSwings(xVal: seq<real>, yVal: seq<seq<real>>, p: Params)
    requires WellFormed(xVal, yVal, p) && !Fails(xVal, yVal, p)
    ensures Ready(xVal, yVal, p)
    ensures Swings(ZigZag(xVal, yVal, p).value.yData, p, StartsHigh(xVal, yVal, p))
  {
    PastGuard(xVal, yVal, p);
    PivotsSwing(xVal, yVal, p);
    var ps := Pivots(xVal, yVal, p);
    assert SeriesOf(ps).yData == Values(ps);
  }

  /** The rows the output points come from. */
  ghost function PivotRows(xVal: seq<real>, yVal: seq<seq<real>>, p: Params): (rows: seq<nat>)
    requires Ready(xVal, yVal, p)
    ensures |rows| == |Pivots(xVal, yVal, p)|
  {
    var ps := Pivots(xVal, yVal, p);
    seq(|ps|, k requires 0 <= k < |ps| => ps[k].at)
  }

  /**
    Every output point is row rows[k]'s timestamp with its high or its low,
    by alternating role; the first comes from row 0, the others from rows
    1 or later, in non-decreasing row order.
   */
  lemma OutputRows(xVal: seq<real>, yVal: seq<seq<real>>, p: Params)
    requires WellFormed(xVal, yVal, p) && !Fails(xVal, yVal, p)
    ensures Ready(xVal, yVal, p)
    ensures var s := ZigZag(xVal, yVal, p).value;
            var rows := PivotRows(xVal, yVal, p);
            var sh := StartsHigh(xVal, yVal, p);
            && Aligned(s) && |rows| == |s.xData|
            && (forall k :: 0 <= k < |rows| ==>
                  rows[k] < |xVal| && s.xData[k] == xVal[rows[k]]
                  && s.yData[k] == Field(xVal, yVal, p, rows[k], HighRole(k, sh)))
            && (|rows| > 0 ==> rows[0] == 0)
            && (forall k :: 1 <= k < |rows| ==> 1 <= rows[k])
            && (forall k :: 0 <= k < |rows| - 1 ==> rows[k] <= rows[k + 1])
  {
    PastGuard(xVal, yVal, p);
    PivotsAt(xVal, yVal, p);
    PivotsFields(xVal, yVal, p);
    var ps := Pivots(xVal, yVal, p);
    var s := SeriesOf(ps);
    var rows := PivotRows(xVal, yVal, p);
    assert ZigZag(xVal, yVal, p).value == s;
    assert forall k :: 0 <= k < |rows| ==> rows[k] == ps[k].at && s.xData[k] == ps[k].x && s.yData[k] == ps[k].y;
  }

  predicate Increasing(xVal: seq<real>)
  {
    forall a, b :: 0 <= a < b < |xVal| ==> xVal[a] < xVal[b]
  }

  /** With increasing input timestamps the output timestamps never decrease. */
  lemma OutputOrdered(xVal: seq<real>, yVal: seq<seq<real>>, p: Params)
    requires WellFormed(xVal, yVal, p) && !Fails(xVal, yVal, p) && Increasing(xVal)
    ensures var s := ZigZag(xVal, yVal, p).value;
            forall k :: 0 <= k < |s.xData| - 1 ==> s.xData[k] <= s.xData[k + 1]
  {
    PastGuard(xVal, yVal, p);
    PivotsAt(xVal, yVal, p);
    var ps := Pivots(xVal, yVal, p);
    var s := SeriesOf(ps);
    forall k | 0 <= k < |s.xData| - 1
      ensures s.xData[k] <= s.xData[k + 1]
    {
      if ps[k].at < ps[k + 1].at {
        assert xVal[ps[k].at] < xVal[ps[k + 1].at];
      }
    }
  }

  /**
    The tail rule: past a breakpoint, the pending candidate is appended
    exactly when the last emitted pivot's timestamp is before the last input
    timestamp; with increasing timestamps, exactly when that pivot is not
    from the last row.
   */
  lemma TailRule(xVal: seq<real>, yVal: seq<seq<real>>, p: Params, j: nat)
    requires Ready(xVal, yVal, p) && FirstBreak(xVal, yVal, p, 1) == Some(j)
    ensures var t := Tracked(xVal, yVal, p, j);
            && |t.pivots| >= 1
            && Pivots(xVal, yVal, p)
               == (if t.pivots[|t.pivots| - 1].x < xVal[|xVal| - 1] then t.pivots + [t.cand] else t.pivots)
            && (Increasing(xVal) ==>
                  (|Pivots(xVal, yVal, p)| == |t.pivots| + 1 <==> t.pivots[|t.pivots| - 1].at < |xVal| - 1))
  {
    TrackInvariants(xVal, yVal, p, j);
  }

  /**
    Between emissions the candidate only moves one way: not up while going
    up, not down while going down; the direction stays.
   */
  lemma {:induction false} CandidateMonotone(xVal: seq<real>, yVal: seq<seq<real>>, p: Params, t: Tracker, lo: nat, hi: nat)
    requires Ready(xVal, yVal, p) && lo <= hi <= |yVal|
    requires |Track(xVal, yVal, p, t, lo, hi).pivots| == |t.pivots|
    ensures var u := Track(xVal, yVal, p, t, lo, hi);
            && u.up == t.up
            && (t.up ==> u.cand.y <= t.cand.y)
            && (!t.up ==> u.cand.y >= t.cand.y)
    decreases hi - lo
  {
    if lo != hi {
      var s := Step(xVal, yVal, p, t, lo);
      TrackGrows(xVal, yVal, p, s, lo + 1, hi);
      CandidateMonotone(xVal, yVal, p, s, lo + 1, hi);
    }
  }

  /**
    Between emissions going up, the candidate is the running minimum of the
    lows: at or below the starting candidate and every low seen, and either
    the starting candidate (every low stayed above it) or the low of the last
    row that reached it (a tie replaces the candidate).
   */
  lemma {:induction false} CandidateRunningLow(xVal: seq<real>, yVal: seq<seq<real>>, p: Params, t: Tracker, lo: nat, hi: nat)
    requires Ready(xVal, yVal, p) && lo <= hi <= |yVal| && t.up
    requires |Track(xVal, yVal, p, t, lo, hi).pivots| == |t.pivots|
    ensures var u := Track(xVal, yVal, p, t, lo, hi);
            && u.cand.y <= t.cand.y
            && (forall k :: lo <= k < hi ==> u.cand.y <= Low(xVal, yVal, p, k))
            && (|| (u.cand == t.cand && forall k :: lo <= k < hi ==> Low(xVal, yVal, p, k) > t.cand.y)
                || (&& lo <= u.cand.at < hi && u.cand == PivotAt(xVal, u.cand.at, Low(xVal, yVal, p, u.cand.at))
                    && forall k :: u.cand.at < k < hi ==> Low(xVal, yVal, p, k) > u.cand.y))
    decreases hi - lo
  {
    if lo != hi {
      var s := Step(xVal, yVal, p, t, lo);
      TrackGrows(xVal, yVal, p, s, lo + 1, hi);
      assert !Reverses(xVal, yVal, p, t, lo);
      assert s == Tracker(t.pivots, Extended(xVal, yVal, p, t, lo), t.up);
      CandidateRunningLow(xVal, yVal, p, s, lo + 1, hi);
    }
  }

  /** The mirror image going down: the candidate is the running maximum of the highs. */
  lemma {:induction false} CandidateRunningHigh(xVal: seq<real>, yVal: seq<seq<real>>, p: Params, t: Tracker, lo: nat, hi: nat)
    requires Ready(xVal, yVal, p) && lo <= hi <= |yVal| && !t.up
    requires |Track(xVal, yVal, p, t, lo, hi).pivots| == |t.pivots|
    ensures var u := Track(xVal, yVal, p, t, lo, hi);
            && u.cand.y >= t.cand.y
            && (forall k :: lo <= k < hi ==> u.cand.y >= High(xVal, yVal, p, k))
            && (|| (u.cand == t.cand && forall k :: lo <= k < hi ==> High(xVal, yVal, p, k) < t.cand.y)
                || (&& lo <= u.cand.at < hi && u.cand == PivotAt(xVal, u.cand.at, High(xVal, yVal, p, u.cand.at))
                    && forall k :: u.cand.at < k < hi ==> High(xVal, yVal, p, k) < u.cand.y))
    decreases hi - lo
  {
    if lo != hi {
      var s := Step(xVal, yVal, p, t, lo);
      TrackGrows(xVal, yVal, p, s, lo + 1, hi);
      assert !Reverses(xVal, yVal, p, t, lo);
      assert s == Tracker(t.pivots, Extended(xVal, yVal, p, t, lo), t.up);
      CandidateRunningHigh(xVal, yVal, p, s, lo + 1, hi);
    }
  }

  /** Pivots are only ever added. */
  lemma {:induction false} TrackGrows(xVal: seq<real>, yVal: seq<seq<real>>, p: Params, t: Tracker, lo: nat, hi: nat)
    requires Ready(xVal, yVal, p) && lo <= hi <= |yVal|
    ensures |Track(xVal, yVal, p, t, lo, hi).pivots| >= |t.pivots|
    ensures Track(xVal, yVal, p, t, lo, hi).pivots[..|t.pivots|] == t.pivots
    decreases hi - lo
  {
    if lo != hi {
      var s := Step(xVal, yVal, p, t, lo);
      TrackGrows(xVal, yVal, p, s, lo + 1, hi);
      var u := Track(xVal, yVal, p, s, lo + 1, hi);
      assert s.pivots[..|t.pivots|] == t.pivots;
      assert u.pivots[..|t.pivots|] == u.pivots[..|s.pivots|][..|t.pivots|];
    }
  }

  /**
    Extension and reversal are not exclusive: a row that extends the
    candidate going up and whose high clears the new candidate by the
    deviation emits that row's low at once.
   */
  lemma ExtendThenReverse(xVal: seq<real>, yVal: seq<seq<real>>, p: Params, t: Tracker, i: nat)
    requires Ready(xVal, yVal, p) && i < |yVal| && t.up
    requires Low(xVal, yVal, p, i) <= t.cand.y
    requires High(xVal, yVal, p, i) >= RiseLevel(Low(xVal, yVal, p, i), p)
    ensures Step(xVal, yVal, p, t, i).pivots == t.pivots + [Pivot(i, xVal[i], Low(xVal, yVal, p, i))]
    ensures Step(xVal, yVal, p, t, i).cand == Pivot(i, xVal[i], High(xVal, yVal, p, i))
    ensures !Step(xVal, yVal, p, t, i).up
  {
  }

  /**
    Strictly increasing input timestamps can still give two output points
    with one timestamp: row 1 is both the trough and, through the tail rule,
    the closing peak.
   */
  lemma RepeatedTimestamp()
    ensures ZigZag([0.0, 1.0, 2.0],
                   [[100.0, 100.0, 100.0, 100.0], [99.0, 100.0, 98.0, 99.0], [99.5, 99.5, 99.5, 99.5]],
                   Params(2, 1, 1.0))
            == Some(Series([(0.0, 100.0), (1.0, 98.0), (1.0, 100.0)], [0.0, 1.0, 1.0], [100.0, 98.0, 100.0]))
  {
    var xVal := [0.0, 1.0, 2.0];
    var yVal := [[100.0, 100.0, 100.0, 100.0], [99.0, 100.0, 98.0, 99.0], [99.5, 99.5, 99.5, 99.5]];
    var p := Params(2, 1, 1.0);
    RepeatedPivots();
    SeriesOfThree(Pivot(0, 0.0, 100.0), Pivot(1, 1.0, 98.0), Pivot(1, 1.0, 100.0));
    assert !Fails(xVal, yVal, p);
  }

  /** The pivots of the input above: row 0's high, row 1's low, then row 1's high as the tail. */
  lemma RepeatedPivots()
    ensures var xVal := [0.0, 1.0, 2.0];
            var yVal := [[100.0, 100.0, 100.0, 100.0], [99.0, 100.0, 98.0, 99.0], [99.5, 99.5, 99.5, 99.5]];
            var p := Params(2, 1, 1.0);
            && Ready(xVal, yVal, p)
            && Pivots(xVal, yVal, p) == [Pivot(0, 0.0, 100.0), Pivot(1, 1.0, 98.0), Pivot(1, 1.0, 100.0)]
  {
    var xVal := [0.0, 1.0, 2.0];
    var yVal := [[100.0, 100.0, 100.0, 100.0], [99.0, 100.0, 98.0, 99.0], [99.5, 99.5, 99.5, 99.5]];
    var p := Params(2, 1, 1.0);
    assert Ready(xVal, yVal, p);
    assert Drops(xVal, yVal, p, 1);
    assert FirstBreak(xVal, yVal, p, 1) == Some(1);
    var t0 := Seed(xVal, yVal, p, 1);
    assert t0 == Tracker([Pivot(0, 0.0, 100.0)], Pivot(1, 1.0, 98.0), true);
    var t1 := Step(xVal, yVal, p, t0, 1);
    assert t1 == Tracker([Pivot(0, 0.0, 100.0), Pivot(1, 1.0, 98.0)], Pivot(1, 1.0, 100.0), false);
    var t2 := Step(xVal, yVal, p, t1, 2);
    assert t2 == t1;
    assert Track(xVal, yVal, p, t2, 3, 3) == t2;
    assert Track(xVal, yVal, p, t0, 1, 3) == t2;
  }

  lemma SeriesOfThree(a: Pivot, b: Pivot, c: Pivot)
    ensures SeriesOf([a, b, c]) == Series([(a.x, a.y), (b.x, b.y), (c.x, c.y)], [a.x, b.x, c.x], [a.y, b.y, c.y])
  {
    var s := SeriesOf([a, b, c]);
    assert s.xData == [a.x, b.x, c.x];
    assert s.yData == [a.y, b.y, c.y];
    assert s.values == [(a.x, a.y), (b.x, b.y), (c.x, c.y)];
  }

  /**
    The seeding scan of `getValues` (the first `for` loop): finds the first
    breakpoint j, pushes the first point and sets the second candidate and
    the direction. Without a breakpoint nothing is pushed.
   */
  method Seeding(xVal: seq<real>, yVal: seq<seq<real>>, p: Params)
    returns (exitLoop: bool, j: nat, zigzag: seq<(real, real)>, xData: seq<real>, yData: seq<real>,
             point: (real, real), directionUp: bool)
    requires Ready(xVal, yVal, p)
    ensures exitLoop <==> FirstBreak(xVal, yVal, p, 1).Some?
    ensures !exitLoop ==> zigzag == [] && xData == [] && yData == []
    ensures exitLoop ==> && FirstBreak(xVal, yVal, p, 1) == Some(j) && 1 <= j < |yVal|
                         && var t := Seed(xVal, yVal, p, j);
                         && Series(zigzag, xData, yData) == SeriesOf(t.pivots)
                         && point == (t.cand.x, t.cand.y) && directionUp == t.up
  {
    var lowIndex, highIndex := p.lowIndex, p.highIndex;
    var yValLen := |yVal|;
    zigzag, xData, yData := [], [], [];
    point, directionUp, exitLoop, j := (0.0, 0.0), false, false, 0;
    var firstLow := yVal[0][lowIndex];
    var firstHigh := yVal[0][highIndex];

    var i := 1;
    while i < yValLen
      invariant 1 <= i <= yValLen
      invariant !exitLoop && zigzag == [] && xData == [] && yData == []
      invariant FirstBreak(xVal, yVal, p, 1) == FirstBreak(xVal, yVal, p, i)
    {
      if yVal[i][lowIndex] <= DropLevel(firstHigh, p) {
        // required change to go down; the next line goes up
        zigzag := zigzag + [(xVal[0], firstHigh)];
        point := (xVal[i], yVal[i][lowIndex]);
        directionUp := true;
        exitLoop := true;
      } else if yVal[i][highIndex] >= RiseLevel(firstLow, p) {
        // required change to go up; the next line goes down
        zigzag := zigzag + [(xVal[0], firstLow)];
        point := (xVal[i], yVal[i][highIndex]);
        directionUp := false;
        exitLoop := true;
      }
      if exitLoop {
        xData := xData + [zigzag[0].0];
        yData := yData + [zigzag[0].1];
        j := i;
        ghost var t := Seed(xVal, yVal, p, j);
        assert Breaks(xVal, yVal, p, i);
        assert point == (t.cand.x, t.cand.y) && directionUp == t.up;
        SingleSeries(t.pivots[0]);
        assert Series(zigzag, xData, yData) == SeriesOf(t.pivots);
        return;
      }
      assert !Breaks(xVal, yVal, p, i);
      i := i + 1;
    }
  }

  /**
    One iteration of the tracking scan at row i, on the variables that stand
    for scan state t; afterwards they stand for Step of t at row i.
   */
  method Row(xVal: seq<real>, yVal: seq<seq<real>>, p: Params, i: nat, ghost t: Tracker,
             zigzag0: seq<(real, real)>, xData0: seq<real>, yData0: seq<real>,
             point0: (real, real), directionUp0: bool)
    returns (zigzag: seq<(real, real)>, xData: seq<real>, yData: seq<real>, point: (real, real), directionUp: bool)
    requires Ready(xVal, yVal, p) && i < |yVal|
    requires Series(zigzag0, xData0, yData0) == SeriesOf(t.pivots)
    requires point0 == (t.cand.x, t.cand.y) && directionUp0 == t.up
    ensures var u := Step(xVal, yVal, p, t, i);
            && Series(zigzag, xData, yData) == SeriesOf(u.pivots)
            && point == (u.cand.x, u.cand.y) && directionUp == u.up
  {
    var lowIndex, highIndex := p.lowIndex, p.highIndex;
    zigzag, xData, yData, point, directionUp := zigzag0, xData0, yData0, point0, directionUp0;
    var yIndex: Option<nat> := None;
    ghost var c := Extended(xVal, yVal, p, t, i);
    if directionUp {
      // lower when going up: new candidate
      if yVal[i][lowIndex] <= point.1 {
        point := (xVal[i], yVal[i][lowIndex]);
      }
      assert point == (c.x, c.y);
      ReversalTest(xVal, yVal, p, t, i, point.1);
      // required change to go up: new pivot and direction change
      if yVal[i][highIndex] >= RiseLevel(point.1, p) {
        yIndex := Some(highIndex);
      }
    } else {
      // higher when going down: new candidate
      if yVal[i][highIndex] >= point.1 {
        point := (xVal[i], yVal[i][highIndex]);
      }
      assert point == (c.x, c.y);
      ReversalTest(xVal, yVal, p, t, i, point.1);
      // required change to go down: new pivot and direction change
      if yVal[i][lowIndex] <= DropLevel(point.1, p) {
        yIndex := Some(lowIndex);
      }
    }
    if yIndex.Some? {
      zigzag := zigzag + [point];
      xData := xData + [point.0];
      yData := yData + [point.1];
      point := (xVal[i], yVal[i][yIndex.value]);
      directionUp := !directionUp;
      SeriesSnoc(t.pivots, c);
    }
  }

  /**
    The tracking scan of `getValues` (the second `for` loop) from row j on,
    starting from the scan state t0 that the pushed points, the candidate and
    the direction stand for; it ends in the state Track describes.
   */
  method Tracking(xVal: seq<real>, yVal: seq<seq<real>>, p: Params, j: nat, ghost t0: Tracker,
                  zigzag0: seq<(real, real)>, xData0: seq<real>, yData0: seq<real>,
                  point0: (real, real), directionUp0: bool)
    returns (zigzag: seq<(real, real)>, xData: seq<real>, yData: seq<real>, point: (real, real), directionUp: bool)
    requires Ready(xVal, yVal, p) && j <= |yVal|
    requires Series(zigzag0, xData0, yData0) == SeriesOf(t0.pivots)
    requires point0 == (t0.cand.x, t0.cand.y) && directionUp0 == t0.up
    ensures var t := Track(xVal, yVal, p, t0, j, |yVal|);
            && Series(zigzag, xData, yData) == SeriesOf(t.pivots)
            && point == (t.cand.x, t.cand.y) && directionUp == t.up
  {
    var yValLen := |yVal|;
    zigzag, xData, yData, point, directionUp := zigzag0, xData0, yData0, point0, directionUp0;
    // the scan state the variables stand for
    ghost var t := t0;

    var i := j;
    while i < yValLen
      invariant j <= i <= yValLen
      invariant Track(xVal, yVal, p, t, i, yValLen) == Track(xVal, yVal, p, t0, j, yValLen)
      invariant Series(zigzag, xData, yData) == SeriesOf(t.pivots)
      invariant point == (t.cand.x, t.cand.y) && directionUp == t.up
    {
      zigzag, xData, yData, point, directionUp := Row(xVal, yVal, p, i, t, zigzag, xData, yData, point, directionUp);
      t := Step(xVal, yVal, p, t, i);
      i := i + 1;
    }
  }

  /**
    The tail rule of `getValues`: the pending candidate is pushed unless the
    last pushed pivot is already at the last timestamp.
   */
  method Tail(lastX: real, ghost t: Tracker, zigzag0: seq<(real, real)>, xData0: seq<real>, yData0: seq<real>,
              point: (real, real))
    returns (zigzag: seq<(real, real)>, xData: seq<real>, yData: seq<real>)
    requires Series(zigzag0, xData0, yData0) == SeriesOf(t.pivots)
    requires point == (t.cand.x, t.cand.y)
    ensures Series(zigzag, xData, yData) == SeriesOf(WithTail(t, lastX))
  {
    zigzag, xData, yData := zigzag0, xData0, yData0;
    SeriesLast(t.pivots);
    assert zigzag == SeriesOf(t.pivots).values;
    var zigZagLen := |zigzag|;
    if zigZagLen != 0 && zigzag[zigZagLen - 1].0 < lastX {
      assert WithTail(t, lastX) == t.pivots + [t.cand];
      zigzag := zigzag + [point];
      xData := xData + [point.0];
      yData := yData + [point.1];
      SeriesSnoc(t.pivots, t.cand);
    } else {
      assert WithTail(t, lastX) == t.pivots;
    }
  }

  /** `getValues`: the guard, the seeding scan, the tracking scan and the tail rule. */
  method GetValues(xVal: seq<real>, yVal: seq<seq<real>>, p: Params) returns (r: Option<Series>)
    requires WellFormed(xVal, yVal, p)
    ensures r == ZigZag(xVal, yVal, p)
    ensures r.None? <==> Fails(xVal, yVal, p)
    ensures r.Some? ==> Aligned(r.value)
  {
    var yValLen := |yVal|;
    if |xVal| <= 1 || (yValLen > 0 && (p.lowIndex >= |yVal[0]| || p.highIndex >= |yVal[0]|)) {
      return None;
    }
    PastGuard(xVal, yVal, p);

    var exitLoop, j, zigzag, xData, yData, point, directionUp := Seeding(xVal, yVal, p);
    // without a breakpoint nothing was pushed, and the candidate is never used
    ghost var t := Tracker([], Pivot(0, point.0, point.1), directionUp);
    if exitLoop {
      // the tracking loop starts at the breakpoint; without one it does not run
      t := Tracked(xVal, yVal, p, j);
      zigzag, xData, yData, point, directionUp :=
        Tracking(xVal, yVal, p, j, Seed(xVal, yVal, p, j), zigzag, xData, yData, point, directionUp);
      assert Pivots(xVal, yVal, p) == WithTail(t, xVal[yValLen - 1]);
    } else {
      assert Pivots(xVal, yVal, p) == WithTail(t, xVal[yValLen - 1]);
    }

    // no pivot for the last row: close on the pending candidate
    zigzag, xData, yData := Tail(xVal[yValLen - 1], t, zigzag, xData, yData, point);
    r := Some(Series(zigzag, xData, yData));
  }
}
