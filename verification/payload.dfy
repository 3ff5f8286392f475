/**
 * The JSON body the browser posts to `/api/save` and `/api/predict`.
 * Every top-level key may be absent (`Option`); keys the server never reads are
 * only remembered by name, because they decide whether a body counts as empty.
 */
module Payload {
  import opened Wrappers

  /** One field's attribute object inside `fields`; any attribute may be missing. */
  datatype FieldInfo = FieldInfo(
    value: Option<string>,
    timeSpentMs: Option<int>,
    hoverDurationMs: Option<int>,
    copy: Option<int>,
    paste: Option<int>,
    delete: Option<int>,
    changes: Option<int>,
    focusCount: Option<int>)

  /** A JSON object's entries in insertion order, as a Python dict keeps them. */
  type FieldMap = seq<(string, FieldInfo)>

  /** The value found under `fields`: an object, or some other JSON value. */
  datatype FieldsValue = Object(entries: FieldMap) | NotAnObject

  datatype Payload = Payload(
    sessionId: Option<string>,
    startTime: Option<int>,
    endTime: Option<int>,
    durationMs: Option<int>,
    submitDelayMs: Option<int>,
    fieldOrder: Option<seq<string>>,
    fields: Option<FieldsValue>,
    fastFill: Option<bool>,
    mouseMoved: Option<bool>,
    mouseClickCount: Option<int>,
    scrollCount: Option<int>,
    viewportChanges: Option<int>,
    tabKeyCount: Option<int>,
    enterPressed: Option<bool>,
    deviceType: Option<string>,
    otherKeys: set<string>)

  /** Python's `not data` on the decoded body: an object without a single key. */
  predicate IsEmpty(p: Payload)
  {
    && p.sessionId.None? && p.startTime.None? && p.endTime.None? && p.durationMs.None?
    && p.submitDelayMs.None? && p.fieldOrder.None? && p.fields.None? && p.fastFill.None?
    && p.mouseMoved.None? && p.mouseClickCount.None? && p.scrollCount.None?
    && p.viewportChanges.None? && p.tabKeyCount.None? && p.enterPressed.None?
    && p.deviceType.None? && p.otherKeys == {}
  }

  /** `len(data)`: how many top-level keys the body carries; `otherKeys` names only keys
      beyond the ones above. */
  function KeyCount(p: Payload): (r: nat)
    ensures r == 0 <==> IsEmpty(p)
    ensures r >= |p.otherKeys|
  {
    Present(p.sessionId) + Present(p.startTime) + Present(p.endTime) + Present(p.durationMs)
    + Present(p.submitDelayMs) + Present(p.fieldOrder) + Present(p.fields) + Present(p.fastFill)
    + Present(p.mouseMoved) + Present(p.mouseClickCount) + Present(p.scrollCount)
    + Present(p.viewportChanges) + Present(p.tabKeyCount) + Present(p.enterPressed)
    + Present(p.deviceType) + |p.otherKeys|
  }

  /** 1 for a key that is there, 0 for one that is not. */
  function Present<T>(o: Option<T>): (r: nat)
    ensures r == 0 <==> o.None?
  {
    if o.Some? then 1 else 0
  }

  /** The entry names of a field map, in order. */
  function Names(m: FieldMap): (r: seq<string>)
    ensures |r| == |m|
    ensures forall i :: 0 <= i < |m| ==> r[i] == m[i].0
  {
    seq(|m|, i requires 0 <= i < |m| => m[i].0)
  }

  /** A field map decoded from JSON has each name once. */
  predicate DistinctNames(m: FieldMap)
  {
    forall i, j :: 0 <= i < j < |m| ==> m[i].0 != m[j].0
  }

  /** `fields.get(name)`. */
  function Lookup(m: FieldMap, name: string): (r: Option<FieldInfo>)
    ensures r.None? <==> forall i :: 0 <= i < |m| ==> m[i].0 != name
    ensures r.Some? ==> exists i :: 0 <= i < |m| && m[i] == (name, r.value)
  {
    if |m| == 0 then None
    else if m[0].0 == name then Some(m[0].1)
    else
      var r := Lookup(m[1..], name);
      assert r.Some? ==> exists i :: 0 <= i < |m| - 1 && m[1..][i] == (name, r.value);
      r
  }

  /** With distinct names, looking up an entry's name finds that entry. */
  lemma {:induction false} LookupAt(m: FieldMap, k: nat)
    requires DistinctNames(m) && k < |m|
    ensures Lookup(m, m[k].0) == Some(m[k].1)
  {
    if k > 0 {
      assert m[0].0 != m[k].0;
      assert DistinctNames(m[1..]) by {
        forall i, j | 0 <= i < j < |m| - 1
          ensures m[1..][i].0 != m[1..][j].0
        {
          assert m[i + 1].0 != m[j + 1].0;
        }
      }
      LookupAt(m[1..], k - 1);
    }
  }
}
