/**
 * The synthetic training-data generator: the canonical field list, the focus
 * orders it writes for each case type, the session times it stores, and the
 * two features it computes differently from the serving extractor (the
 * order deviation and the device code). The random draws are inputs.
 */
module GenerateCases {
  import opened Wrappers
  import opened Strings
  import opened FeatureExtractor

  /** The eight form fields in their canonical order. */
  const FIELD_NAMES: seq<string> := ["nom", "prenom", "cin", "adresse", "profession", "revenu", "montant", "duree"]

  /** The case types the generator knows, as listed in its sample counts. */
  const CASE_TYPES: seq<string> := [
    "normal", "fast", "paste_abuse", "hesitant", "no_mouse", "strategic_fraud", "copy_safe",
    "mouse_but_fast", "hesitant_legit", "hybrid_confusing"]

  lemma FieldNamesDistinct()
    ensures forall a, b :: 0 <= a < b < |FIELD_NAMES| ==> FIELD_NAMES[a] != FIELD_NAMES[b]
    ensures forall k :: 0 <= k < |FIELD_NAMES| ==> ',' !in FIELD_NAMES[k]
  {
  }

  // ---------------------------------------------------------------- order deviation

  /** `calc_deviation(order_str)`: a stored order that is not a string, or does not split on
      commas into eight names, scores the maximum 8; otherwise the positions where it disagrees
      with the canonical order. */
  function CalcDeviation(order: Option<string>): (r: nat)
    ensures r <= |FIELD_NAMES|
    ensures order.None? ==> r == |FIELD_NAMES|
    ensures order.Some? && |Split(order.value, ',')| != |FIELD_NAMES| ==> r == |FIELD_NAMES|
    ensures order.Some? && |Split(order.value, ',')| == |FIELD_NAMES| ==>
      r == |DiffPositions(FIELD_NAMES, Split(order.value, ','), |FIELD_NAMES|)|
    ensures order.Some? && |Split(order.value, ',')| == |FIELD_NAMES| ==>
      (r == 0 <==> Split(order.value, ',') == FIELD_NAMES)
  {
    match order
    case None => |FIELD_NAMES|
    case Some(text) =>
      var actual := Split(text, ',');
      if |actual| != |FIELD_NAMES| then |FIELD_NAMES|
      else
        MismatchesCountsPositions(FIELD_NAMES, actual, |FIELD_NAMES|);
        assert actual[..|FIELD_NAMES|] == actual;
        Mismatches(FIELD_NAMES, actual, |FIELD_NAMES|)
  }

  /** A comma-joined arrangement of the canonical names scores its disagreeing positions. */
  lemma DeviationOfJoined(order: seq<string>)
    requires multiset(order) == multiset(FIELD_NAMES)
    ensures Split(Join(order, ","), ',') == order
    ensures CalcDeviation(Some(Join(order, ","))) == |DiffPositions(FIELD_NAMES, order, |FIELD_NAMES|)|
  {
    FieldNamesDistinct();
    assert |order| == |multiset(order)| == |FIELD_NAMES|;
    forall k | 0 <= k < |order|
      ensures ',' !in order[k]
    {
      assert order[k] in multiset(order);
      assert order[k] in multiset(FIELD_NAMES);
    }
    SplitJoin(order, ',');
  }

  /** The canonical order itself deviates by nothing. */
  lemma CanonicalDeviationIsZero()
    ensures CalcDeviation(Some(Join(FIELD_NAMES, ","))) == 0
  {
    DeviationOfJoined(FIELD_NAMES);
  }

  // ---------------------------------------------------------------- focus orders

  /** Exchanging two entries. */
  function Swap(s: seq<string>, i: nat, j: nat): (r: seq<string>)
    requires i < |s| && j < |s|
    ensures |r| == |s| && r[i] == s[j] && r[j] == s[i]
    ensures forall k :: 0 <= k < |s| && k != i && k != j ==> r[k] == s[k]
    ensures multiset(r) == multiset(s)
  {
    s[i := s[j]][j := s[i]]
  }

  /** The draws the random module makes for one call: the index pairs `random.sample` returns
      (one per swap performed) and the indices `random.shuffle` draws, from the last position
      down to position 1. */
  datatype Draws = Draws(swaps: seq<(nat, nat)>, shuffle: seq<nat>)

  /** Draws `random` can produce for a case of type `caseType` over a list of `n` entries:
      hesitant cases draw one to three swaps, fast and paste_abuse cases at most one, other
      types none; each sampled pair is two distinct positions, and the shuffle's k-th draw
      lies in [0, n - 1 - k], one for each of the positions n - 1 down to 1. */
  predicate WellDrawn(caseType: string, d: Draws, n: nat)
  {
    && (if caseType == "hesitant" then 1 <= |d.swaps| <= 3
        else if caseType == "fast" || caseType == "paste_abuse" then |d.swaps| <= 1
        else |d.swaps| == 0)
    && (forall k :: 0 <= k < |d.swaps| ==> d.swaps[k].0 < n && d.swaps[k].1 < n && d.swaps[k].0 != d.swaps[k].1)
    && |d.shuffle| == (if n == 0 then 0 else n - 1)
    && (forall k :: 0 <= k < |d.shuffle| ==> d.shuffle[k] <= n - 1 - k)
  }

  /** The swaps applied in turn. */
  function ApplySwaps(s: seq<string>, swaps: seq<(nat, nat)>): (r: seq<string>)
    requires forall k :: 0 <= k < |swaps| ==> swaps[k].0 < |s| && swaps[k].1 < |s|
    ensures |r| == |s| && multiset(r) == multiset(s)
    decreases |swaps|
  {
    if |swaps| == 0 then s
    else ApplySwaps(Swap(s, swaps[0].0, swaps[0].1), swaps[1..])
  }

  /** `random.shuffle` on the prefix `s[..i + 1]`: position i is exchanged with the drawn one,
      then the positions below it are shuffled. */
  function Shuffle(s: seq<string>, i: nat, draws: seq<nat>): (r: seq<string>)
    requires i < |s| && |draws| == i
    requires forall k :: 0 <= k < |draws| ==> draws[k] <= i - k
    ensures |r| == |s| && multiset(r) == multiset(s)
    decreases i
  {
    if i == 0 then s
    else Shuffle(Swap(s, i, draws[0]), i - 1, draws[1..])
  }

  /** The case types whose focus order is not always the canonical one. */
  predicate Reorders(caseType: string)
  {
    caseType == "hesitant" || caseType == "fast" || caseType == "paste_abuse" || caseType == "hybrid_confusing"
  }

  /** `permute_order_for_case(case_type)` before the join: "hesitant" performs its one to three
      sampled swaps, "fast" and "paste_abuse" the swap they draw with probability 0.4 (none or
      one), "hybrid_confusing" a full shuffle, every other case type keeps the canonical order. */
  function PermuteOrder(caseType: string, d: Draws): (r: seq<string>)
    requires WellDrawn(caseType, d, |FIELD_NAMES|)
    ensures multiset(r) == multiset(FIELD_NAMES)
    ensures !Reorders(caseType) ==> r == FIELD_NAMES
    ensures Reorders(caseType) && caseType != "hybrid_confusing" && |d.swaps| == 0 ==> r == FIELD_NAMES
  {
    if caseType == "hesitant" || caseType == "fast" || caseType == "paste_abuse" then
      ApplySwaps(FIELD_NAMES, d.swaps)
    else if caseType == "hybrid_confusing" then
      Shuffle(FIELD_NAMES, |FIELD_NAMES| - 1, d.shuffle)
    else FIELD_NAMES
  }

  /** The stored `fieldFocusOrder`: the permuted names joined with commas. */
  function FocusOrderText(caseType: string, d: Draws): (r: string)
    requires WellDrawn(caseType, d, |FIELD_NAMES|)
    ensures Split(r, ',') == PermuteOrder(caseType, d)
    ensures CalcDeviation(Some(r)) == |DiffPositions(FIELD_NAMES, PermuteOrder(caseType, d), |FIELD_NAMES|)|
  {
    DeviationOfJoined(PermuteOrder(caseType, d));
    Join(PermuteOrder(caseType, d), ",")
  }

  lemma ApplyOneSwap(s: seq<string>, swaps: seq<(nat, nat)>)
    requires |swaps| == 1 && swaps[0].0 < |s| && swaps[0].1 < |s|
    ensures ApplySwaps(s, swaps) == Swap(s, swaps[0].0, swaps[0].1)
  {
    assert swaps[1..] == [];
  }

  /** Exchanging two distinct entries of a list without repeats moves exactly those two. */
  lemma SwapMovesTwo(s: seq<string>, i: nat, j: nat)
    requires i < |s| && j < |s| && i != j
    requires forall a, b :: 0 <= a < b < |s| ==> s[a] != s[b]
    ensures DiffPositions(s, Swap(s, i, j), |s|) == {i, j}
  {
  }

  /** One swap of two distinct positions moves exactly two names: the training deviation of a
      session that drew a single swap is 2. */
  lemma SingleSwapDeviation(caseType: string, d: Draws)
    requires WellDrawn(caseType, d, |FIELD_NAMES|) && |d.swaps| == 1
    requires caseType == "fast" || caseType == "paste_abuse" || caseType == "hesitant"
    ensures CalcDeviation(Some(FocusOrderText(caseType, d))) == 2
  {
    var names := FIELD_NAMES;
    FieldNamesDistinct();
    var i, j := d.swaps[0].0, d.swaps[0].1;
    ApplyOneSwap(names, d.swaps);
    SwapMovesTwo(names, i, j);
    var r := PermuteOrder(caseType, d);
    assert r == Swap(names, i, j);
    var text := FocusOrderText(caseType, d);
    assert CalcDeviation(Some(text)) == |DiffPositions(names, r, |names|)|;
    PairSize(i, j);
  }

  lemma PairSize(i: nat, j: nat)
    requires i != j
    ensures |{i, j}| == 2
  {
  }

  // ---------------------------------------------------------------- sessions

  /** The per-case parameters: the duration range in milliseconds, the mouse flag, the Tab count
      and the label (`target`, 1 for fraud). */
  datatype CaseParams = CaseParams(durationLo: int, durationHi: int, mouse: int, tabs: int, target: int)

  /** The parameter table; an unknown case type has none (the source's lookup raises). */
  function ParamsOf(caseType: string): (r: Option<CaseParams>)
    ensures r.Some? <==> caseType in CASE_TYPES
    ensures r.Some? ==> 0 < r.value.durationLo <= r.value.durationHi
    ensures r.Some? ==> r.value.target in {0, 1} && r.value.mouse in {0, 1}
  {
    match caseType
    case "normal" => Some(CaseParams(30000, 90000, 1, 0, 0))
    case "fast" => Some(CaseParams(3000, 7000, 1, 0, 1))
    case "paste_abuse" => Some(CaseParams(10000, 20000, 1, 0, 1))
    case "hesitant" => Some(CaseParams(60000, 120000, 1, 0, 1))
    case "no_mouse" => Some(CaseParams(8000, 15000, 0, 3, 1))
    case "strategic_fraud" => Some(CaseParams(40000, 70000, 1, 0, 1))
    case "copy_safe" => Some(CaseParams(40000, 80000, 1, 0, 0))
    case "mouse_but_fast" => Some(CaseParams(3000, 6000, 1, 0, 1))
    case "hesitant_legit" => Some(CaseParams(60000, 120000, 1, 0, 0))
    case "hybrid_confusing" => Some(CaseParams(45000, 90000, 1, 1, 1))
    case _ => None
  }

  /** The start and end time of a generated session: `duration` is the draw from the case's
      range, `start` the drawn past timestamp. */
  function SessionTimes(caseType: string, start: int, duration: int): (r: Result<(int, int), string>)
    ensures r.Err? <==> caseType !in CASE_TYPES
    ensures r.Ok? ==> r.value.0 == start && r.value.1 - r.value.0 == duration
  {
    match ParamsOf(caseType)
    case None => Err(caseType)
    case Some(_) => Ok((start, start + duration))
  }

  /** Every known case type yields sessions that satisfy the table's `end_time > start_time`
      check, whatever start is drawn. */
  lemma EndAfterStart(caseType: string, start: int, duration: int)
    requires caseType in CASE_TYPES
    requires ParamsOf(caseType).value.durationLo <= duration <= ParamsOf(caseType).value.durationHi
    ensures SessionTimes(caseType, start, duration).Ok?
    ensures SessionTimes(caseType, start, duration).value.1 > SessionTimes(caseType, start, duration).value.0
  {
  }

  // ---------------------------------------------------------------- device code

  /** The training set's device map: desktop 0, mobile 1, anything else (including a missing
      value) 0. */
  function TrainDeviceCode(device: Option<string>): (r: nat)
    ensures r <= 1
    ensures r == 1 <==> device == Some("mobile")
  {
    match device
    case Some("desktop") => 0
    case Some("mobile") => 1
    case _ => 0
  }

  /** Training and serving agree on the two device classes the generator produces... */
  lemma DeviceCodesAgreeOnGenerated(device: string)
    requires device == "desktop" || device == "mobile"
    ensures TrainDeviceCode(Some(device)) == DeviceCode(device)
  {
  }

  /** ...and disagree on every other value: a tablet or an unrecognised device is 0 in training
      but 2 or 3 when serving. */
  lemma DeviceCodesDisagreeElsewhere(device: string)
    requires device != "desktop" && device != "mobile"
    ensures TrainDeviceCode(Some(device)) == 0
    ensures DeviceCode(device) >= 2
    ensures device == "tablet" ==> DeviceCode(device) == 2
  {
  }

  /** The two order deviations measure different things: an order with its first two names
      exchanged, every field focused, scores 0 when serving and 2 in training. */
  lemma DeviationsDisagree(d: Draws, m: Payload.FieldMap)
    requires WellDrawn("fast", d, |FIELD_NAMES|) && d.swaps == [(0, 1)]
    requires forall k :: 0 <= k < |FIELD_NAMES| ==> FocusOf(m, FIELD_NAMES[k]) > 0
    ensures OrderDeviation(PermuteOrder("fast", d), m) == 0
    ensures CalcDeviation(Some(FocusOrderText("fast", d))) == 2
  {
    var names := FIELD_NAMES;
    ApplyOneSwap(names, d.swaps);
    var r := PermuteOrder("fast", d);
    assert r == Swap(names, 0, 1);
    forall k | 0 <= k < |r|
      ensures FocusOf(m, r[k]) > 0
    {
      if k == 0 {
        assert r[k] == names[1];
      } else if k == 1 {
        assert r[k] == names[0];
      } else {
        assert r[k] == names[k];
      }
    }
    SingleSwapDeviation("fast", d);
  }
}
