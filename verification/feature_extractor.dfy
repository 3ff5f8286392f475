/**
 * The feature extractor: a pure map from one session payload to the twenty
 * behavioural features the classifier reads. Means and ratios are exact
 * rationals (`real`); the square root inside the standard deviation is the one
 * operation taken as a parameter.
 */
module FeatureExtractor {
  import opened Wrappers
  import opened Payload

  /** The labels the static device encoder was fitted on, numbered in their sorted order. */
  const DEVICE_CLASSES: seq<string> := ["desktop", "mobile", "tablet", "unknown"]

  /** Position of `x` in `classes`, or None where the encoder would raise on an unseen label. */
  function IndexOf(classes: seq<string>, x: string): (r: Option<nat>)
    ensures r.Some? ==> r.value < |classes| && classes[r.value] == x
    ensures r.Some? ==> forall k :: 0 <= k < r.value ==> classes[k] != x
    ensures r.None? <==> x !in classes
  {
    if |classes| == 0 then None
    else if classes[0] == x then Some(0)
    else match IndexOf(classes[1..], x)
      case None => None
      case Some(i) => Some(i + 1)
  }

  /** The device code: the encoder's class index, and the index of "unknown" for any label it
      was not fitted on. */
  function DeviceCode(device: string): (r: nat)
    ensures r <= 3
    ensures r == 0 <==> device == "desktop"
    ensures r == 1 <==> device == "mobile"
    ensures r == 2 <==> device == "tablet"
    ensures r == 3 <==> device !in DEVICE_CLASSES[..3]
  {
    match IndexOf(DEVICE_CLASSES, device)
    case Some(i) => i
    case None => IndexOf(DEVICE_CLASSES, "unknown").value
  }

  /** An unrecognised device label encodes exactly like "unknown". */
  lemma UnrecognisedDeviceIsUnknown(device: string)
    requires device !in DEVICE_CLASSES
    ensures DeviceCode(device) == DeviceCode("unknown") == 3
  {
  }

  /** The per-field numeric attributes the extractor aggregates. */
  datatype Attr = TimeSpent | Focus | Changes | Paste | Delete

  /** `f.get(key, 0)` for the attribute's JSON key (`timeSpentMs`, `focusCount`, `changes`,
      `paste`, `delete`). */
  function AttrOf(f: FieldInfo, a: Attr): int
  {
    match a
    case TimeSpent => f.timeSpentMs.GetOr(0)
    case Focus => f.focusCount.GetOr(0)
    case Changes => f.changes.GetOr(0)
    case Paste => f.paste.GetOr(0)
    case Delete => f.delete.GetOr(0)
  }

  /** One attribute over `fields.values()`, in map order. */
  function Column(m: FieldMap, a: Attr): (r: seq<int>)
    ensures |r| == |m|
    ensures forall i :: 0 <= i < |m| ==> r[i] == AttrOf(m[i].1, a)
  {
    seq(|m|, i requires 0 <= i < |m| => AttrOf(m[i].1, a))
  }

  function Sum(xs: seq<int>): int
  {
    if |xs| == 0 then 0 else xs[0] + Sum(xs[1..])
  }

  /** The arithmetic mean, 0 for no values. */
  function Mean(xs: seq<int>): real
  {
    if |xs| == 0 then 0.0 else Sum(xs) as real / |xs| as real
  }

  /** What a mean is: times the count it gives the sum back, it lies between the smallest and
      the largest value, and a constant column has that constant as its mean. */
  lemma MeanIsMean(xs: seq<int>)
    requires |xs| > 0
    ensures Mean(xs) * |xs| as real == Sum(xs) as real
    ensures Min(xs) as real <= Mean(xs) <= Max(xs) as real
    ensures (forall k :: 0 <= k < |xs| ==> xs[k] == xs[0]) ==> Mean(xs) == xs[0] as real
  {
    MeanTimesCount(xs);
    MeanBetween(xs);
    if forall k :: 0 <= k < |xs| ==> xs[k] == xs[0] {
      MeanBetween(xs);
      assert Min(xs) == xs[0] && Max(xs) == xs[0];
    }
  }

  /** Multiplying the mean back by the count gives the sum. */
  lemma MeanTimesCount(xs: seq<int>)
    requires |xs| > 0
    ensures Mean(xs) * |xs| as real == Sum(xs) as real
  {
    var n := |xs| as real;
    var q := Sum(xs) as real / n;
    assert q * n == Sum(xs) as real;
  }

  /** The mean lies between the smallest and the largest value. */
  lemma MeanBetween(xs: seq<int>)
    requires |xs| > 0
    ensures Min(xs) as real <= Mean(xs) <= Max(xs) as real
  {
    SumBounded(xs, Min(xs), Max(xs));
    MeanOf(Mean(xs), Sum(xs), |xs|, Min(xs), Max(xs));
  }

  /** The quotient `m` of a total of `n` values within [lo, hi] by `n` lies within [lo, hi]. */
  lemma MeanOf(m: real, total: int, n: nat, lo: int, hi: int)
    requires n > 0 && m == total as real / n as real
    requires lo * n <= total <= hi * n
    ensures lo as real <= m <= hi as real
  {
    assert (lo * n) as real == lo as real * n as real;
    assert (hi * n) as real == hi as real * n as real;
  }

  /** A sum of values within [lo, hi] lies within [count * lo, count * hi]. */
  lemma {:induction false} SumBounded(xs: seq<int>, lo: int, hi: int)
    requires forall k :: 0 <= k < |xs| ==> lo <= xs[k] <= hi
    ensures lo * |xs| <= Sum(xs) <= hi * |xs|
  {
    if |xs| > 0 {
      SumBounded(xs[1..], lo, hi);
    }
  }

  /** The largest value of a non-empty list: it is one of the values and bounds all of them. */
  function Max(xs: seq<int>): (r: int)
    requires |xs| > 0
    ensures r in xs
    ensures forall k :: 0 <= k < |xs| ==> xs[k] <= r
  {
    if |xs| == 1 then xs[0]
    else
      var rest := Max(xs[1..]);
      if xs[0] >= rest then xs[0] else rest
  }

  /** The smallest value of a non-empty list: it is one of the values and bounds all of them. */
  function Min(xs: seq<int>): (r: int)
    requires |xs| > 0
    ensures r in xs
    ensures forall k :: 0 <= k < |xs| ==> r <= xs[k]
  {
    if |xs| == 1 then xs[0]
    else
      var rest := Min(xs[1..]);
      if xs[0] <= rest then xs[0] else rest
  }

  /** How many values are strictly positive. */
  function CountPositive(xs: seq<int>): (r: nat)
    ensures r <= |xs|
    ensures r == 0 <==> forall k :: 0 <= k < |xs| ==> xs[k] <= 0
  {
    if |xs| == 0 then 0
    else
      var init := xs[..|xs| - 1];
      assert forall k :: 0 <= k < |init| ==> init[k] == xs[k];
      CountPositive(init) + (if xs[|xs| - 1] > 0 then 1 else 0)
  }

  /** The positions holding a strictly positive value. */
  ghost function PositivePositions(xs: seq<int>): set<nat>
  {
    set k: nat | k < |xs| && xs[k] > 0
  }

  /** `CountPositive` counts exactly the positions holding a positive value. */
  lemma {:induction false} CountPositiveCounts(xs: seq<int>)
    ensures CountPositive(xs) == |PositivePositions(xs)|
  {
    if |xs| > 0 {
      var n := |xs|;
      var init := xs[..n - 1];
      CountPositiveCounts(init);
      var before := PositivePositions(init);
      var after := if xs[n - 1] > 0 then before + {n - 1} else before;
      forall x: nat
        ensures x in PositivePositions(xs) <==> x in after
      {
        if x < n - 1 {
          assert xs[x] == init[x];
        }
      }
      assert PositivePositions(xs) == after;
      assert (n - 1) !in before;
    }
  }

  /** The share of strictly positive values, 0 for no values. */
  function PositiveRatio(xs: seq<int>): (r: real)
    ensures 0.0 <= r <= 1.0
    ensures r == 0.0 <==> forall k :: 0 <= k < |xs| ==> xs[k] <= 0
  {
    if |xs| == 0 then 0.0 else CountPositive(xs) as real / |xs| as real
  }

  /** The ratio is the number of positions holding a positive value over the number of values. */
  lemma PositiveRatioValue(xs: seq<int>)
    requires |xs| > 0
    ensures PositiveRatio(xs) == |PositivePositions(xs)| as real / |xs| as real
  {
    CountPositiveCounts(xs);
  }

  function SumSquaredDeviation(xs: seq<int>, mu: real): (r: real)
    ensures r >= 0.0
    ensures (forall k :: 0 <= k < |xs| ==> xs[k] as real == mu) ==> r == 0.0
  {
    if |xs| == 0 then 0.0
    else (xs[0] as real - mu) * (xs[0] as real - mu) + SumSquaredDeviation(xs[1..], mu)
  }

  /** The population variance (`np.std` squared): never negative, and 0 for one value. */
  function Variance(xs: seq<int>): (r: real)
    requires |xs| > 0
    ensures r >= 0.0
    ensures |xs| == 1 ==> r == 0.0
  {
    var mu := Mean(xs);
    if |xs| == 1 then
      assert Sum(xs) == xs[0] + Sum(xs[1..]) == xs[0];
      assert mu == xs[0] as real;
      SumSquaredDeviation(xs, mu) / 1.0
    else
      SumSquaredDeviation(xs, mu) / |xs| as real
  }

  lemma {:induction false} SumOfConstant(xs: seq<int>, c: int)
    requires forall k :: 0 <= k < |xs| ==> xs[k] == c
    ensures Sum(xs) == |xs| * c
  {
    if |xs| > 0 {
      SumOfConstant(xs[1..], c);
    }
  }

  /** Fields that all took the same time have variance 0: the mean is that time. */
  lemma ConstantHasZeroVariance(xs: seq<int>)
    requires |xs| > 0 && forall k :: 0 <= k < |xs| ==> xs[k] == xs[0]
    ensures Variance(xs) == 0.0
  {
    SumOfConstant(xs, xs[0]);
    assert Mean(xs) == (|xs| * xs[0]) as real / |xs| as real == xs[0] as real;
  }

  /** `np.std` over the time column, given the square root; 0 for no values. */
  function StdOrZero(xs: seq<int>, sqrt: real -> real): (r: real)
    ensures |xs| == 0 ==> r == 0.0
    ensures |xs| == 1 ==> r == sqrt(0.0)
  {
    if |xs| > 0 then sqrt(Variance(xs)) else 0.0
  }

  /** `max(xs)`, 0 for no values. */
  function MaxOrZero(xs: seq<int>): (r: int)
    ensures |xs| == 0 ==> r == 0
    ensures |xs| > 0 ==> (forall k :: 0 <= k < |xs| ==> xs[k] <= r) && exists k :: 0 <= k < |xs| && xs[k] == r
  {
    if |xs| > 0 then Max(xs) else 0
  }

  /** `scrollCount / (duration_ms / 1000)`, 0 unless the duration is positive. */
  function ScrollDensity(scrolls: int, duration: int): (r: real)
    ensures duration <= 0 ==> r == 0.0
    ensures duration > 0 ==> r * duration as real == 1000.0 * scrolls as real
  {
    if duration > 0 then
      var seconds := duration as real / 1000.0;
      var q := scrolls as real / seconds;
      assert q * seconds == scrolls as real;
      q
    else 0.0
  }

  /** focusCount of the named field, 0 when it is absent from `fields` or has no such key. */
  function FocusOf(m: FieldMap, name: string): int
  {
    match Lookup(m, name)
    case None => 0
    case Some(f) => AttrOf(f, Focus)
  }

  /** The entries of `order` whose field was focused at least once, in order. */
  function Visited(order: seq<string>, m: FieldMap): (r: seq<string>)
    ensures |r| <= |order|
  {
    if |order| == 0 then []
    else
      var rest := Visited(order[1..], m);
      (if FocusOf(m, order[0]) > 0 then [order[0]] else []) + rest
  }

  /** Visiting is a filter: a name is kept exactly as often as it occurs in `order` when its
      field was focused, and not at all otherwise. */
  lemma {:induction false} VisitedIsFilter(order: seq<string>, m: FieldMap)
    ensures forall x :: x in Visited(order, m) <==> x in order && FocusOf(m, x) > 0
    ensures forall x :: multiset(Visited(order, m))[x] == if FocusOf(m, x) > 0 then multiset(order)[x] else 0
  {
    if |order| > 0 {
      VisitedIsFilter(order[1..], m);
      assert order == [order[0]] + order[1..];
      assert multiset(order) == multiset{order[0]} + multiset(order[1..]);
    }
  }

  /** Visiting keeps the order: the visited entries of an earlier segment come before those of
      a later one. */
  lemma {:induction false} VisitedConcat(a: seq<string>, b: seq<string>, m: FieldMap)
    ensures Visited(a + b, m) == Visited(a, m) + Visited(b, m)
  {
    if |a| == 0 {
      assert a + b == b;
    } else {
      assert (a + b)[1..] == a[1..] + b;
      VisitedConcat(a[1..], b, m);
    }
  }

  /** Visiting keeps everything when every entry was focused and nothing when none was. */
  lemma VisitedExtremes(order: seq<string>, m: FieldMap)
    ensures (forall k :: 0 <= k < |order| ==> FocusOf(m, order[k]) > 0) ==> Visited(order, m) == order
    ensures (forall k :: 0 <= k < |order| ==> FocusOf(m, order[k]) <= 0) ==> Visited(order, m) == []
  {
    if forall k :: 0 <= k < |order| ==> FocusOf(m, order[k]) > 0 {
      VisitedAll(order, m);
    }
    if forall k :: 0 <= k < |order| ==> FocusOf(m, order[k]) <= 0 {
      VisitedNone(order, m);
    }
  }

  lemma {:induction false} VisitedAll(order: seq<string>, m: FieldMap)
    requires forall k :: 0 <= k < |order| ==> FocusOf(m, order[k]) > 0
    ensures Visited(order, m) == order
  {
    if |order| > 0 {
      var rest := order[1..];
      assert forall k :: 0 <= k < |rest| ==> rest[k] == order[k + 1];
      VisitedAll(rest, m);
      assert order == [order[0]] + rest;
    }
  }

  lemma {:induction false} VisitedNone(order: seq<string>, m: FieldMap)
    requires forall k :: 0 <= k < |order| ==> FocusOf(m, order[k]) <= 0
    ensures Visited(order, m) == []
  {
    if |order| > 0 {
      var rest := order[1..];
      assert forall k :: 0 <= k < |rest| ==> rest[k] == order[k + 1];
      VisitedNone(rest, m);
    }
  }

  /** Number of positions below `n` at which `a` and `b` differ. */
  function Mismatches(a: seq<string>, b: seq<string>, n: nat): (r: nat)
    requires n <= |a| && n <= |b|
    ensures r <= n
    ensures r == 0 <==> a[..n] == b[..n]
  {
    if n == 0 then 0
    else
      var rest := Mismatches(a, b, n - 1);
      assert a[..n] == a[..n - 1] + [a[n - 1]] && b[..n] == b[..n - 1] + [b[n - 1]];
      rest + (if a[n - 1] != b[n - 1] then 1 else 0)
  }

  /** The positions below `n` where `a` and `b` disagree. */
  ghost function DiffPositions(a: seq<string>, b: seq<string>, n: nat): set<nat>
    requires n <= |a| && n <= |b|
  {
    set k: nat | k < n && a[k] != b[k]
  }

  /** `Mismatches` counts exactly the disagreeing positions. */
  lemma {:induction false} MismatchesCountsPositions(a: seq<string>, b: seq<string>, n: nat)
    requires n <= |a| && n <= |b|
    ensures Mismatches(a, b, n) == |DiffPositions(a, b, n)|
  {
    if n > 0 {
      MismatchesCountsPositions(a, b, n - 1);
      DiffPositionsStep(a, b, n);
    }
  }

  /** Extending the compared prefix by one position adds that position exactly when it differs. */
  lemma DiffPositionsStep(a: seq<string>, b: seq<string>, n: nat)
    requires 0 < n <= |a| && n <= |b|
    ensures var before := DiffPositions(a, b, n - 1);
      && (n - 1) !in before
      && DiffPositions(a, b, n) == if a[n - 1] != b[n - 1] then before + {n - 1} else before
  {
    var before := DiffPositions(a, b, n - 1);
    var after := if a[n - 1] != b[n - 1] then before + {n - 1} else before;
    forall x: nat
      ensures x in DiffPositions(a, b, n) <==> x in after
    {
      if x < n - 1 {
        assert x in DiffPositions(a, b, n) <==> x in before;
      }
    }
  }

  /** The field-order deviation: the visited entries compared position by position with the
      same-length prefix of `order` itself. */
  function OrderDeviation(order: seq<string>, m: FieldMap): (r: nat)
    ensures r == |DiffPositions(Visited(order, m), order, |Visited(order, m)|)|
    ensures r <= |Visited(order, m)|
    ensures r == 0 <==> Visited(order, m) == order[..|Visited(order, m)|]
    ensures (forall k :: 0 <= k < |order| ==> FocusOf(m, order[k]) > 0) ==> r == 0
    ensures (forall k :: 0 <= k < |order| ==> FocusOf(m, order[k]) <= 0) ==> r == 0
  {
    var actual := Visited(order, m);
    VisitedExtremes(order, m);
    MismatchesCountsPositions(actual, order, |actual|);
    Mismatches(actual, order, |actual|)
  }

  /** The deviation depends on `fields` only through which named entries were focused. */
  lemma {:induction false} VisitedIgnoresUnfocused(order: seq<string>, m1: FieldMap, m2: FieldMap)
    requires forall k :: 0 <= k < |order| ==> (FocusOf(m1, order[k]) > 0 <==> FocusOf(m2, order[k]) > 0)
    ensures Visited(order, m1) == Visited(order, m2)
    ensures OrderDeviation(order, m1) == OrderDeviation(order, m2)
  {
    if |order| > 0 {
      VisitedIgnoresUnfocused(order[1..], m1, m2);
    }
  }

  /** The twenty features of one session. */
  datatype Features = Features(
    durationMs: int,
    mouseClickCount: int,
    scrollCount: int,
    scrollDensity: real,
    viewportChanges: int,
    tabCount: int,
    enterPressed: int,
    deviceTypeEncoded: int,
    fieldCount: nat,
    totalTimeSpent: int,
    avgTimePerField: real,
    totalFocusCount: int,
    avgChangesPerField: real,
    avgPastePerField: real,
    avgDeletePerField: real,
    fieldOrderDeviation: nat,
    stdTimePerField: real,
    maxPasteCount: int,
    pasteRatio: real,
    deleteRatio: real)

  /** The features computed from the per-field entries. */
  datatype Aggregates = Aggregates(
    fieldCount: nat,
    totalTimeSpent: int,
    avgTimePerField: real,
    totalFocusCount: int,
    avgChangesPerField: real,
    avgPastePerField: real,
    avgDeletePerField: real,
    stdTimePerField: real,
    maxPasteCount: int,
    pasteRatio: real,
    deleteRatio: real)

  /** The per-field aggregates of `fields`; every one is 0 for an empty map, where the source
      skips the computation. */
  function Summarise(m: FieldMap, sqrt: real -> real): (r: Aggregates)
    ensures r.fieldCount == |m|
    ensures r.totalTimeSpent == Sum(Column(m, TimeSpent)) && r.totalFocusCount == Sum(Column(m, Focus))
    ensures |m| == 0 ==>
      && r.totalTimeSpent == 0 && r.avgTimePerField == 0.0 && r.totalFocusCount == 0
      && r.avgChangesPerField == 0.0 && r.avgPastePerField == 0.0 && r.avgDeletePerField == 0.0
      && r.stdTimePerField == 0.0 && r.maxPasteCount == 0 && r.pasteRatio == 0.0 && r.deleteRatio == 0.0
    ensures |m| > 0 ==> r.avgTimePerField == r.totalTimeSpent as real / |m| as real
    ensures |m| > 0 ==> r.avgPastePerField == Sum(Column(m, Paste)) as real / |m| as real
    ensures |m| > 0 ==> r.avgDeletePerField == Sum(Column(m, Delete)) as real / |m| as real
    ensures |m| > 0 ==> r.avgChangesPerField == Sum(Column(m, Changes)) as real / |m| as real
    ensures |m| == 1 ==> r.stdTimePerField == sqrt(0.0)
    ensures 0.0 <= r.pasteRatio <= 1.0 && 0.0 <= r.deleteRatio <= 1.0
    ensures r.pasteRatio == 0.0 <==> forall i :: 0 <= i < |m| ==> AttrOf(m[i].1, Paste) <= 0
    ensures r.deleteRatio == 0.0 <==> forall i :: 0 <= i < |m| ==> AttrOf(m[i].1, Delete) <= 0
    ensures |m| > 0 ==> forall i :: 0 <= i < |m| ==> AttrOf(m[i].1, Paste) <= r.maxPasteCount
    ensures |m| > 0 ==> exists i :: 0 <= i < |m| && AttrOf(m[i].1, Paste) == r.maxPasteCount
  {
    var times := Column(m, TimeSpent);
    var pastes := Column(m, Paste);
    var total := Sum(times);
    Aggregates(
      fieldCount := |m|,
      totalTimeSpent := total,
      avgTimePerField := Mean(times),
      totalFocusCount := Sum(Column(m, Focus)),
      avgChangesPerField := Mean(Column(m, Changes)),
      avgPastePerField := Mean(pastes),
      avgDeletePerField := Mean(Column(m, Delete)),
      stdTimePerField := StdOrZero(times, sqrt),
      maxPasteCount := MaxOrZero(pastes),
      pasteRatio := PositiveRatio(pastes),
      deleteRatio := PositiveRatio(Column(m, Delete)))
  }

  /** The paste and delete ratios are the number of fields that pasted (deleted) over the
      number of fields. */
  lemma SummariseRatios(m: FieldMap, sqrt: real -> real)
    requires |m| > 0
    ensures Summarise(m, sqrt).pasteRatio == |PositivePositions(Column(m, Paste))| as real / |m| as real
    ensures Summarise(m, sqrt).deleteRatio == |PositivePositions(Column(m, Delete))| as real / |m| as real
  {
    PositiveRatioValue(Column(m, Paste));
    PositiveRatioValue(Column(m, Delete));
  }

  /** The per-field part of a feature record. */
  function AggregatesOf(f: Features): Aggregates
  {
    Aggregates(f.fieldCount, f.totalTimeSpent, f.avgTimePerField, f.totalFocusCount,
               f.avgChangesPerField, f.avgPastePerField, f.avgDeletePerField, f.stdTimePerField,
               f.maxPasteCount, f.pasteRatio, f.deleteRatio)
  }

  /** The features of a payload whose `fields` is the map `m`; `sqrt` stands for the square root
      inside `np.std`. Absent top-level keys take the source's defaults. */
  function FromFields(p: Payload, m: FieldMap, sqrt: real -> real): (r: Features)
    ensures AggregatesOf(r) == Summarise(m, sqrt)
    ensures r.scrollDensity == ScrollDensity(p.scrollCount.GetOr(0), p.durationMs.GetOr(0))
    ensures p.durationMs.GetOr(0) <= 0 ==> r.scrollDensity == 0.0
    ensures r.fieldOrderDeviation == OrderDeviation(p.fieldOrder.GetOr([]), m)
    ensures r.fieldOrderDeviation <= |Visited(p.fieldOrder.GetOr([]), m)|
    ensures (forall k :: 0 <= k < |p.fieldOrder.GetOr([])| ==> FocusOf(m, p.fieldOrder.GetOr([])[k]) > 0)
      ==> r.fieldOrderDeviation == 0
    ensures 0 <= r.deviceTypeEncoded <= 3
    ensures p.deviceType.None? ==> r.deviceTypeEncoded == 3
    ensures r.enterPressed == (if p.enterPressed == Some(true) then 1 else 0)
    ensures r.tabCount == p.tabKeyCount.GetOr(0)
  {
    var a := Summarise(m, sqrt);
    var duration := p.durationMs.GetOr(0);
    var scrolls := p.scrollCount.GetOr(0);
    Features(
      durationMs := duration,
      mouseClickCount := p.mouseClickCount.GetOr(0),
      scrollCount := scrolls,
      scrollDensity := ScrollDensity(scrolls, duration),
      viewportChanges := p.viewportChanges.GetOr(0),
      tabCount := p.tabKeyCount.GetOr(0),
      enterPressed := if p.enterPressed == Some(true) then 1 else 0,
      deviceTypeEncoded := DeviceCode(p.deviceType.GetOr("unknown")),
      fieldCount := a.fieldCount,
      totalTimeSpent := a.totalTimeSpent,
      avgTimePerField := a.avgTimePerField,
      totalFocusCount := a.totalFocusCount,
      avgChangesPerField := a.avgChangesPerField,
      avgPastePerField := a.avgPastePerField,
      avgDeletePerField := a.avgDeletePerField,
      fieldOrderDeviation := OrderDeviation(p.fieldOrder.GetOr([]), m),
      stdTimePerField := a.stdTimePerField,
      maxPasteCount := a.maxPasteCount,
      pasteRatio := a.pasteRatio,
      deleteRatio := a.deleteRatio)
  }

  /** The features copied from the body, with the body's default when a key is absent. */
  lemma PassedThrough(p: Payload, m: FieldMap, sqrt: real -> real)
    ensures var r := FromFields(p, m, sqrt);
      && r.durationMs == p.durationMs.GetOr(0) && r.scrollCount == p.scrollCount.GetOr(0)
      && r.mouseClickCount == p.mouseClickCount.GetOr(0) && r.viewportChanges == p.viewportChanges.GetOr(0)
      && r.deviceTypeEncoded == DeviceCode(p.deviceType.GetOr("unknown"))
  {
  }

  /** `extract_features(data)`: None where the source raises because `fields` holds a JSON
      value other than an object; an absent `fields` counts as the empty map. */
  function Extract(p: Payload, sqrt: real -> real): (r: Option<Features>)
    ensures r.None? <==> p.fields == Some(NotAnObject)
    ensures p.fields.None? ==> r.Some? && r.value.fieldCount == 0 && r.value.fieldOrderDeviation == 0
    ensures p.fields.Some? && p.fields.value.Object? ==> r == Some(FromFields(p, p.fields.value.entries, sqrt))
  {
    match p.fields
    case None => Some(FromFields(p, [], sqrt))
    case Some(Object(m)) => Some(FromFields(p, m, sqrt))
    case Some(NotAnObject) => None
  }
}
