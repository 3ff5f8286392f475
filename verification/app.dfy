/**
 * The two request handlers: `save_data` (validate, build the session row and one
 * field row per entry, write them) and `predict` (extract, assemble the vector in
 * FEATURE_ORDER, classify, append to the audit log, alert on Suspicious).
 * The classifier, the square root, the clock, the client address and the
 * outcome of the webhook call are inputs; the audit log and the alerts sent are
 * traces the handlers extend.
 */
module App {
  import opened Wrappers
  import opened Strings
  import opened Payload
  import opened FeatureExtractor
  import opened Database

  /** The column order the classifier was trained on. */
  const FEATURE_ORDER: seq<string> := [
    "duration_ms", "mouseClickCount", "scrollCount", "scrollDensity", "viewportChanges",
    "tabCount", "enterPressed", "deviceType_encoded", "fieldCount", "totalTimeSpent",
    "avgTimePerField", "totalFocusCount", "avgChangesPerField", "avgPastePerField",
    "avgDeletePerField", "fieldOrderDeviation", "stdTimePerField", "maxPasteCount",
    "pasteRatio", "deleteRatio"]

  /** The keys `/api/save` insists on, in the order it reports them. */
  const REQUIRED_KEYS: seq<string> := [
    "session_id", "start_time", "end_time", "submit_delay_ms", "field_order", "fields"]

  /** Whether a required key is present in the body. */
  predicate HasKey(p: Payload, key: string)
  {
    if key == "session_id" then p.sessionId.Some?
    else if key == "start_time" then p.startTime.Some?
    else if key == "end_time" then p.endTime.Some?
    else if key == "submit_delay_ms" then p.submitDelayMs.Some?
    else if key == "field_order" then p.fieldOrder.Some?
    else if key == "fields" then p.fields.Some?
    else key in p.otherKeys
  }

  /** The keys of `keys` absent from the body, in order. */
  function Absent(p: Payload, keys: seq<string>): (r: seq<string>)
    ensures forall k :: k in r <==> k in keys && !HasKey(p, k)
    ensures |r| <= |keys|
  {
    if |keys| == 0 then []
    else (if HasKey(p, keys[0]) then [] else [keys[0]]) + Absent(p, keys[1..])
  }

  /** The check distributes over a split of the key list, so the reported keys keep the order
      in which they are listed. */
  lemma {:induction false} AbsentConcat(p: Payload, a: seq<string>, b: seq<string>)
    ensures Absent(p, a + b) == Absent(p, a) + Absent(p, b)
  {
    if |a| == 0 {
      assert a + b == b;
    } else {
      assert (a + b)[1..] == a[1..] + b;
      AbsentConcat(p, a[1..], b);
    }
  }

  /** Every required key is present. */
  predicate Complete(p: Payload)
  {
    && p.sessionId.Some? && p.startTime.Some? && p.endTime.Some?
    && p.submitDelayMs.Some? && p.fieldOrder.Some? && p.fields.Some?
  }

  /** The list of missing names the 400 answer reports: empty exactly when the body is complete. */
  function MissingRequired(p: Payload): (r: seq<string>)
    ensures forall k :: k in r <==> k in REQUIRED_KEYS && !HasKey(p, k)
    ensures |r| == 0 <==> Complete(p)
  {
    var r := Absent(p, REQUIRED_KEYS);
    RequiredPresent(p);
    assert |r| > 0 ==> r[0] in r;
    r
  }

  /** The body is complete exactly when it has every required key. */
  lemma RequiredPresent(p: Payload)
    ensures Complete(p) <==> forall i :: 0 <= i < |REQUIRED_KEYS| ==> HasKey(p, REQUIRED_KEYS[i])
  {
    assert HasKey(p, REQUIRED_KEYS[0]) == p.sessionId.Some?;
    assert HasKey(p, REQUIRED_KEYS[1]) == p.startTime.Some?;
    assert HasKey(p, REQUIRED_KEYS[2]) == p.endTime.Some?;
    assert HasKey(p, REQUIRED_KEYS[3]) == p.submitDelayMs.Some?;
    assert HasKey(p, REQUIRED_KEYS[4]) == p.fieldOrder.Some?;
    assert HasKey(p, REQUIRED_KEYS[5]) == p.fields.Some?;
  }

  /** Why a request was answered with 400. */
  datatype Reason =
    | NoData
    | MissingKeys(keys: seq<string>)
    | InvalidFieldsFormat
    | MissingFeature(name: string)

  datatype Label = Clean | Suspicious

  /** The handler's answer; `Status` gives its HTTP code. */
  datatype Response =
    | Saved
    | Scored(score: real, verdict: Label)
    | BadRequest(reason: Reason)
    | ServerError
  {
    function Status(): int
    {
      match this
      case Saved => 200
      case Scored(_, _) => 200
      case BadRequest(_) => 400
      case ServerError => 500
    }
  }

  /** Python's `int(bool(x))` on an optional JSON boolean. */
  function Flag(b: Option<bool>): (r: int)
    ensures r == 0 || r == 1
    ensures r == 1 <==> b == Some(true)
  {
    if b == Some(true) then 1 else 0
  }

  /** The session row `save_data` builds, with the source's defaults for absent keys. */
  function SessionDataOf(p: Payload): (r: SessionData)
    ensures r.fastFill == Flag(p.fastFill) && r.mouseMoved == Flag(p.mouseMoved)
    ensures r.enterPressed == Flag(p.enterPressed)
    ensures r.sessionId == p.sessionId.GetOr("unknown")
    ensures r.startTime == p.startTime.GetOr(0) && r.endTime == p.endTime.GetOr(0)
    ensures r.submitDelayMs == p.submitDelayMs.GetOr(0)
    ensures r.mouseClickCount == p.mouseClickCount.GetOr(0) && r.scrollCount == p.scrollCount.GetOr(0)
    ensures r.viewportChanges == p.viewportChanges.GetOr(0) && r.tabKeyCount == p.tabKeyCount.GetOr(0)
    ensures p.deviceType.None? ==> r.deviceType == "unknown"
    ensures p.deviceType.Some? ==> r.deviceType == p.deviceType.value
    ensures r.fieldFocusOrder == Join(p.fieldOrder.GetOr([]), ",")
    ensures p.fieldOrder.None? ==> r.fieldFocusOrder == ""
  {
    var order := p.fieldOrder.GetOr([]);
    SessionData(
      sessionId := p.sessionId.GetOr("unknown"),
      startTime := p.startTime.GetOr(0),
      endTime := p.endTime.GetOr(0),
      submitDelayMs := p.submitDelayMs.GetOr(0),
      fastFill := Flag(p.fastFill),
      mouseMoved := Flag(p.mouseMoved),
      mouseClickCount := p.mouseClickCount.GetOr(0),
      scrollCount := p.scrollCount.GetOr(0),
      viewportChanges := p.viewportChanges.GetOr(0),
      tabKeyCount := p.tabKeyCount.GetOr(0),
      enterPressed := Flag(p.enterPressed),
      deviceType := p.deviceType.GetOr("unknown"),
      fieldFocusOrder := Join(order, ","))
  }

  /** The stored `fieldFocusOrder` gives the visit order back when split on commas, provided
      the order is non-empty and no name contains a comma. */
  lemma FocusOrderRoundTrip(p: Payload)
    requires p.fieldOrder.Some? && |p.fieldOrder.value| >= 1
    requires forall k :: 0 <= k < |p.fieldOrder.value| ==> ',' !in p.fieldOrder.value[k]
    ensures Split(SessionDataOf(p).fieldFocusOrder, ',') == p.fieldOrder.value
  {
    SplitJoin(p.fieldOrder.value, ',');
  }

  /** The field row `save_data` builds for one entry: `delete` is stored as `delete_count`,
      missing numbers become 0 and a missing value "". */
  function FieldDataOf(sessionId: string, name: string, f: FieldInfo): (r: FieldData)
    ensures r.sessionId == sessionId && r.fieldName == name
    ensures r.value == f.value.GetOr("")
    ensures r.deleteCount == AttrOf(f, Delete) && r.paste == AttrOf(f, Paste)
    ensures r.timeSpentMs == AttrOf(f, TimeSpent) && r.changes == AttrOf(f, Changes)
    ensures r.focusCount == AttrOf(f, Focus)
    ensures r.copy == f.copy.GetOr(0) && r.hoverDurationMs == f.hoverDurationMs.GetOr(0)
  {
    FieldData(sessionId, name, f.value.GetOr(""), f.timeSpentMs.GetOr(0), f.hoverDurationMs.GetOr(0),
      f.copy.GetOr(0), f.paste.GetOr(0), f.delete.GetOr(0), f.changes.GetOr(0), f.focusCount.GetOr(0))
  }

  /** The loop over `fields.items()`: one appended row per entry, in map order. */
  function InsertFields(t: Tables, sessionId: string, m: FieldMap): (r: Tables)
    ensures r.sessions == t.sessions
    ensures |r.fields| == |t.fields| + |m| && r.fields[..|t.fields|] == t.fields
    ensures forall i :: 0 <= i < |m| ==> r.fields[|t.fields| + i].data == FieldDataOf(sessionId, m[i].0, m[i].1)
    ensures Valid(t) ==> Valid(r)
    decreases |m|
  {
    if |m| == 0 then t
    else
      var t' := InsertField(t, FieldDataOf(sessionId, m[0].0, m[0].1));
      var r := InsertFields(t', sessionId, m[1..]);
      assert |t'.fields| == |t.fields| + 1;
      assert r.fields[..|t'.fields|][..|t.fields|] == r.fields[..|t.fields|];
      r
  }

  /** What `save_data` leaves behind: the answer, the tables, and the request dictionary it
      wrote `duration_ms` into. */
  datatype SaveResult = SaveResult(response: Response, tables: Tables, data: Payload)

  /** `save_data`. The session row is written before `fields` is type-checked, so a body whose
      `fields` is not an object gets a 400 and still leaves its session behind. */
  function Save(t: Tables, p: Payload): (r: SaveResult)
    ensures IsEmpty(p) ==> r == SaveResult(BadRequest(NoData), t, p)
    ensures !IsEmpty(p) && !Complete(p) ==>
      r == SaveResult(BadRequest(MissingKeys(MissingRequired(p))), t, p)
    ensures r.response.Status() == 200 ==> r.response == Saved
    ensures r.response.Saved? <==> !IsEmpty(p) && Complete(p) && p.fields.value.Object?
    ensures r.response.Status() == 200 || r.response.Status() == 400
    ensures |r.tables.fields| >= |t.fields|
    ensures !IsEmpty(p) && Complete(p) ==>
      && r.data.durationMs == Some(p.endTime.value - p.startTime.value)
      && GetSession(r.tables, p.sessionId.value) == Some(SessionRow(SessionDataOf(p), None))
      && (forall k :: k != p.sessionId.value ==> GetSession(r.tables, k) == GetSession(t, k))
      && r.tables.fields[..|t.fields|] == t.fields
    ensures !IsEmpty(p) && Complete(p) && p.fields.value.NotAnObject? ==>
      r.response == BadRequest(InvalidFieldsFormat) && r.tables.fields == t.fields
    ensures r.response.Saved? ==>
      var m := p.fields.value.entries;
      && |r.tables.fields| == |t.fields| + |m|
      && forall i :: 0 <= i < |m| ==>
           r.tables.fields[|t.fields| + i].data == FieldDataOf(p.sessionId.value, m[i].0, m[i].1)
    ensures Valid(t) ==> Valid(r.tables)
  {
    if IsEmpty(p) then SaveResult(BadRequest(NoData), t, p)
    else
      var missing := MissingRequired(p);
      if |missing| > 0 then SaveResult(BadRequest(MissingKeys(missing)), t, p)
      else
        var data := p.(durationMs := Some(p.endTime.value - p.startTime.value));
        var session := SessionDataOf(p);
        var t1 := UpsertSession(t, session);
        match p.fields.value
        case NotAnObject => SaveResult(BadRequest(InvalidFieldsFormat), t1, data)
        case Object(m) => SaveResult(Saved, InsertFields(t1, session.sessionId, m), data)
  }

  /** Saving a body again appends its field rows again: the rows stored for that session grow
      by the number of entries on every save, while the session itself stays a single row. */
  lemma ResaveDuplicatesFieldRows(t: Tables, p: Payload)
    requires Save(t, p).response.Saved?
    ensures var t2 := Save(Save(t, p).tables, p).tables;
      && |RowsFor(t2.fields, p.sessionId.value)|
         == |RowsFor(t.fields, p.sessionId.value)| + 2 * |p.fields.value.entries|
      && t2.sessions.Keys == t.sessions.Keys + {p.sessionId.value}
  {
    var id := p.sessionId.value;
    var t1 := Save(t, p).tables;
    var t2 := Save(t1, p).tables;
    SavedRowsBelongToSession(t, p);
    SavedRowsBelongToSession(t1, p);
  }

  /** One successful save adds exactly one row per entry to the rows stored for its session. */
  lemma SavedRowsBelongToSession(t: Tables, p: Payload)
    requires Save(t, p).response.Saved?
    ensures |RowsFor(Save(t, p).tables.fields, p.sessionId.value)|
      == |RowsFor(t.fields, p.sessionId.value)| + |p.fields.value.entries|
  {
    var id := p.sessionId.value;
    var r := Save(t, p).tables;
    var m := p.fields.value.entries;
    forall i | |t.fields| <= i < |r.fields|
      ensures r.fields[i].data.sessionId == id
    {
      var j := i - |t.fields|;
      assert r.fields[|t.fields| + j].data == FieldDataOf(id, m[j].0, m[j].1);
    }
    RowsForGrowth(t.fields, r.fields, id);
  }

  /** The value of one named feature. */
  function FeatureValue(f: Features, name: string): real
  {
    if name == "duration_ms" then f.durationMs as real
    else if name == "mouseClickCount" then f.mouseClickCount as real
    else if name == "scrollCount" then f.scrollCount as real
    else if name == "scrollDensity" then f.scrollDensity
    else if name == "viewportChanges" then f.viewportChanges as real
    else if name == "tabCount" then f.tabCount as real
    else if name == "enterPressed" then f.enterPressed as real
    else if name == "deviceType_encoded" then f.deviceTypeEncoded as real
    else if name == "fieldCount" then f.fieldCount as real
    else if name == "totalTimeSpent" then f.totalTimeSpent as real
    else if name == "avgTimePerField" then f.avgTimePerField
    else if name == "totalFocusCount" then f.totalFocusCount as real
    else if name == "avgChangesPerField" then f.avgChangesPerField
    else if name == "avgPastePerField" then f.avgPastePerField
    else if name == "avgDeletePerField" then f.avgDeletePerField
    else if name == "fieldOrderDeviation" then f.fieldOrderDeviation as real
    else if name == "stdTimePerField" then f.stdTimePerField
    else if name == "maxPasteCount" then f.maxPasteCount as real
    else if name == "pasteRatio" then f.pasteRatio
    else f.deleteRatio
  }

  /** The dictionary `extract_features` returns: one entry per name of FEATURE_ORDER. */
  function AsRecord(f: Features): (r: map<string, real>)
    ensures r.Keys == set n | n in FEATURE_ORDER
  {
    map n | n in FEATURE_ORDER :: FeatureValue(f, n)
  }

  /** `[features[f] for f in FEATURE_ORDER]`: the values in the given order, or the first name
      the record lacks (the KeyError). */
  function Assemble(rec: map<string, real>, names: seq<string>): (r: Result<seq<real>, string>)
    ensures r.Ok? <==> forall i :: 0 <= i < |names| ==> names[i] in rec
    ensures r.Ok? ==> |r.value| == |names| && forall i :: 0 <= i < |names| ==> r.value[i] == rec[names[i]]
    ensures r.Err? ==> r.error in names && r.error !in rec
    ensures r.Err? ==> exists i :: 0 <= i < |names| && names[i] == r.error && forall j :: 0 <= j < i ==> names[j] in rec
  {
    if |names| == 0 then Ok([])
    else if names[0] !in rec then Err(names[0])
    else match Assemble(rec, names[1..])
      case Ok(v) => Ok([rec[names[0]]] + v)
      case Err(k) => Err(k)
  }

  /** The twenty features in the classifier's column order, written out position by position. */
  function Vector(f: Features): seq<real>
  {
    [f.durationMs as real, f.mouseClickCount as real, f.scrollCount as real, f.scrollDensity,
     f.viewportChanges as real, f.tabCount as real, f.enterPressed as real, f.deviceTypeEncoded as real,
     f.fieldCount as real, f.totalTimeSpent as real, f.avgTimePerField, f.totalFocusCount as real,
     f.avgChangesPerField, f.avgPastePerField, f.avgDeletePerField, f.fieldOrderDeviation as real,
     f.stdTimePerField, f.maxPasteCount as real, f.pasteRatio, f.deleteRatio]
  }

  /** The extracted record always holds every name of FEATURE_ORDER, so the missing-feature
      answer cannot happen, and assembling it yields the twenty features in column order. */
  lemma AssembleExtracted(f: Features)
    ensures Assemble(AsRecord(f), FEATURE_ORDER) == Ok(Vector(f))
    ensures |Vector(f)| == |FEATURE_ORDER| == 20
  {
    var rec := AsRecord(f);
    var r := Assemble(rec, FEATURE_ORDER);
    assert forall i :: 0 <= i < |FEATURE_ORDER| ==> FEATURE_ORDER[i] in rec;
    forall i | 0 <= i < 20
      ensures r.value[i] == Vector(f)[i]
    {
      FeatureAt(f, i);
    }
    assert r.value == Vector(f);
  }

  /** The record's entry under the i-th name of FEATURE_ORDER is the i-th vector position. */
  lemma FeatureAt(f: Features, i: int)
    requires 0 <= i < 20
    ensures AsRecord(f)[FEATURE_ORDER[i]] == Vector(f)[i]
  {
    if i < 10 {
      FeatureAtLow(f, i);
    } else {
      FeatureAtHigh(f, i);
    }
  }

  lemma FeatureAtLow(f: Features, i: int)
    requires 0 <= i < 10
    ensures AsRecord(f)[FEATURE_ORDER[i]] == Vector(f)[i]
  {
    if i == 0 {
      assert FEATURE_ORDER[0] == "duration_ms";
      assert FeatureValue(f, "duration_ms") == Vector(f)[0];
    } else if i == 1 {
      assert FEATURE_ORDER[1] == "mouseClickCount";
      assert FeatureValue(f, "mouseClickCount") == Vector(f)[1];
    } else if i == 2 {
      assert FEATURE_ORDER[2] == "scrollCount";
      assert FeatureValue(f, "scrollCount") == Vector(f)[2];
    } else if i == 3 {
      assert FEATURE_ORDER[3] == "scrollDensity";
      assert FeatureValue(f, "scrollDensity") == Vector(f)[3];
    } else if i == 4 {
      assert FEATURE_ORDER[4] == "viewportChanges";
      assert FeatureValue(f, "viewportChanges") == Vector(f)[4];
    } else if i == 5 {
      assert FEATURE_ORDER[5] == "tabCount";
      assert FeatureValue(f, "tabCount") == Vector(f)[5];
    } else if i == 6 {
      assert FEATURE_ORDER[6] == "enterPressed";
      assert FeatureValue(f, "enterPressed") == Vector(f)[6];
    } else if i == 7 {
      assert FEATURE_ORDER[7] == "deviceType_encoded";
      assert FeatureValue(f, "deviceType_encoded") == Vector(f)[7];
    } else if i == 8 {
      assert FEATURE_ORDER[8] == "fieldCount";
      assert FeatureValue(f, "fieldCount") == Vector(f)[8];
    } else {
      assert FEATURE_ORDER[9] == "totalTimeSpent";
      assert FeatureValue(f, "totalTimeSpent") == Vector(f)[9];
    }
  }

  lemma FeatureAtHigh(f: Features, i: int)
    requires 10 <= i < 20
    ensures AsRecord(f)[FEATURE_ORDER[i]] == Vector(f)[i]
  {
    if i == 10 {
      assert FEATURE_ORDER[10] == "avgTimePerField";
      assert FeatureValue(f, "avgTimePerField") == Vector(f)[10];
    } else if i == 11 {
      assert FEATURE_ORDER[11] == "totalFocusCount";
      assert FeatureValue(f, "totalFocusCount") == Vector(f)[11];
    } else if i == 12 {
      assert FEATURE_ORDER[12] == "avgChangesPerField";
      assert FeatureValue(f, "avgChangesPerField") == Vector(f)[12];
    } else if i == 13 {
      assert FEATURE_ORDER[13] == "avgPastePerField";
      assert FeatureValue(f, "avgPastePerField") == Vector(f)[13];
    } else if i == 14 {
      assert FEATURE_ORDER[14] == "avgDeletePerField";
      assert FeatureValue(f, "avgDeletePerField") == Vector(f)[14];
    } else if i == 15 {
      assert FEATURE_ORDER[15] == "fieldOrderDeviation";
      assert FeatureValue(f, "fieldOrderDeviation") == Vector(f)[15];
    } else if i == 16 {
      assert FEATURE_ORDER[16] == "stdTimePerField";
      assert FeatureValue(f, "stdTimePerField") == Vector(f)[16];
    } else if i == 17 {
      assert FEATURE_ORDER[17] == "maxPasteCount";
      assert FeatureValue(f, "maxPasteCount") == Vector(f)[17];
    } else if i == 18 {
      assert FEATURE_ORDER[18] == "pasteRatio";
      assert FeatureValue(f, "pasteRatio") == Vector(f)[18];
    } else {
      assert FEATURE_ORDER[19] == "deleteRatio";
      assert FeatureValue(f, "deleteRatio") == Vector(f)[19];
    }
  }



  /** The classifier's answers for one vector: the discrete class, and the positive-class
      probability as `round(p, 4)` reports it. */
  datatype Prediction = Prediction(cls: int, score: real)

  /** The loaded model: the input width it was fitted on, and its prediction. */
  datatype Classifier = Classifier(width: int, predict: seq<real> -> Prediction)

  /** A line of the audit log file. */
  datatype LogLine = Header | Entry(timestamp: string, sessionId: string, verdict: Label, score: real)

  /** The log file holds nothing, or the header line followed by entries only. */
  predicate WellFormedLog(log: seq<LogLine>)
  {
    |log| == 0 || (log[0] == Header && forall i :: 1 <= i < |log| ==> log[i].Entry?)
  }

  /** Appending one entry: the header goes first only when the file is still empty. */
  function AppendLog(log: seq<LogLine>, e: LogLine): (r: seq<LogLine>)
    ensures |log| == 0 ==> r == [Header, e]
    ensures |log| > 0 ==> r == log + [e]
    ensures WellFormedLog(log) && e.Entry? ==> WellFormedLog(r)
  {
    if |log| == 0 then [Header, e] else log + [e]
  }

  /** The JSON body posted to the alert webhook. */
  datatype Alert = Alert(
    sessionId: string,
    client: string,
    montant: string,
    revenu: string,
    cin: string,
    adresse: string,
    profession: string,
    duree: string,
    ip: string,
    score: real,
    verdict: Label,
    timestamp: string,
    link: string)

  /** One call of the webhook and whether it raised (timeout, transport error). */
  datatype AlertAttempt = AlertAttempt(alert: Alert, failed: bool)

  /** What a predict call depends on besides the body: the model, the square root behind
      `np.std`, the clock's formatted time, the client's address and the webhook's fate. */
  datatype Env = Env(model: Classifier, sqrt: real -> real, now: string, ip: string, webhookFails: bool)

  datatype PredictResult = PredictResult(response: Response, log: seq<LogLine>, alerts: seq<AlertAttempt>)

  /** `form_fields.get(name, {}).get("value", "")`. */
  function FormValue(m: FieldMap, name: string): (r: string)
    ensures Lookup(m, name).None? ==> r == ""
    ensures r != "" ==> exists k :: 0 <= k < |m| && m[k].0 == name && m[k].1.value == Some(r)
  {
    match Lookup(m, name)
    case None => ""
    case Some(f) => f.value.GetOr("")
  }

  /** With distinct field names, the form value of an entry's name is that entry's value. */
  lemma FormValueAt(m: FieldMap, k: nat)
    requires DistinctNames(m) && k < |m|
    ensures FormValue(m, m[k].0) == m[k].1.value.GetOr("")
  {
    LookupAt(m, k);
  }

  const SESSION_LINK_PREFIX: string := "https://ton-system.local/sessions/"

  /** The alert body for a Suspicious session, read from the submitted form values. */
  function AlertFor(m: FieldMap, sessionId: string, env: Env, score: real): (r: Alert)
    ensures r.sessionId == sessionId && r.verdict == Suspicious && r.score == score
    ensures r.cin == FormValue(m, "cin") && r.montant == FormValue(m, "montant")
    ensures r.revenu == FormValue(m, "revenu") && r.adresse == FormValue(m, "adresse")
    ensures r.profession == FormValue(m, "profession") && r.duree == FormValue(m, "duree")
    ensures r.client == Strip(FormValue(m, "nom") + " " + FormValue(m, "prenom"))
    ensures |r.client| > 0 ==> !IsSpace(r.client[0]) && !IsSpace(r.client[|r.client| - 1])
    ensures r.ip == env.ip && r.timestamp == env.now
    ensures r.link == SESSION_LINK_PREFIX + sessionId
  {
    Alert(
      sessionId := sessionId,
      client := Strip(FormValue(m, "nom") + " " + FormValue(m, "prenom")),
      montant := FormValue(m, "montant"),
      revenu := FormValue(m, "revenu"),
      cin := FormValue(m, "cin"),
      adresse := FormValue(m, "adresse"),
      profession := FormValue(m, "profession"),
      duree := FormValue(m, "duree"),
      ip := env.ip,
      score := score,
      verdict := Suspicious,
      timestamp := env.now,
      link := SESSION_LINK_PREFIX + sessionId)
  }

  /** The field map of a body whose `fields` is absent or an object. */
  function FormFields(p: Payload): FieldMap
  {
    match p.fields
    case Some(Object(m)) => m
    case _ => []
  }

  /** `predict`. Extraction raising (a `fields` that is not an object) and a width mismatch are
      both caught by the outer handler and answered with 500. */
  function Predict(env: Env, p: Payload, log: seq<LogLine>, alerts: seq<AlertAttempt>): (r: PredictResult)
    ensures IsEmpty(p) ==> r == PredictResult(BadRequest(NoData), log, alerts)
    ensures r.response.BadRequest? ==> r.response.reason == NoData
    ensures r.response.Status() == 200 <==>
      !IsEmpty(p) && p.fields != Some(NotAnObject) && env.model.width == |FEATURE_ORDER|
    ensures r.response.Status() == 200 ==> r.response.Scored?
    ensures !r.response.Scored? ==> r.log == log && r.alerts == alerts
    ensures r.response.Scored? ==>
      var pr := env.model.predict(Vector(Extract(p, env.sqrt).value));
      && (r.response.verdict == Suspicious <==> pr.cls == 1)
      && r.response.score == pr.score
      && r.log == log + (if |log| == 0 then [Header] else [])
                      + [Entry(env.now, p.sessionId.GetOr("unknown"), r.response.verdict, pr.score)]
      && (r.response.verdict == Clean ==> r.alerts == alerts)
      && (r.response.verdict == Suspicious ==>
            r.alerts == alerts + [AlertAttempt(AlertFor(FormFields(p), p.sessionId.GetOr("unknown"), env, pr.score),
                                               env.webhookFails)])
    ensures WellFormedLog(log) ==> WellFormedLog(r.log)
  {
    if IsEmpty(p) then PredictResult(BadRequest(NoData), log, alerts)
    else
      var sessionId := p.sessionId.GetOr("unknown");
      match Extract(p, env.sqrt)
      case None => PredictResult(ServerError, log, alerts)
      case Some(f) =>
        AssembleExtracted(f);
        match Assemble(AsRecord(f), FEATURE_ORDER)
        case Err(k) => PredictResult(BadRequest(MissingFeature(k)), log, alerts)
        case Ok(v) =>
          if |v| != env.model.width then PredictResult(ServerError, log, alerts)
          else Score(env, sessionId, FormFields(p), v, log, alerts)
  }

  /** Classify a vector of the model's width, log the outcome, and alert on Suspicious. */
  function Score(env: Env, sessionId: string, m: FieldMap, v: seq<real>, log: seq<LogLine>,
                 alerts: seq<AlertAttempt>): (r: PredictResult)
    ensures r.response.Scored?
    ensures r.response.verdict == Suspicious <==> env.model.predict(v).cls == 1
    ensures r.response.score == env.model.predict(v).score
    ensures r.log == log + (if |log| == 0 then [Header] else [])
                         + [Entry(env.now, sessionId, r.response.verdict, r.response.score)]
    ensures r.response.verdict == Clean ==> r.alerts == alerts
    ensures r.response.verdict == Suspicious ==>
      r.alerts == alerts + [AlertAttempt(AlertFor(m, sessionId, env, r.response.score), env.webhookFails)]
  {
    var pr := env.model.predict(v);
    var verdict := if pr.cls == 1 then Suspicious else Clean;
    var log' := AppendLog(log, Entry(env.now, sessionId, verdict, pr.score));
    var alerts' :=
      if verdict == Suspicious
      then alerts + [AlertAttempt(AlertFor(m, sessionId, env, pr.score), env.webhookFails)]
      else alerts;
    PredictResult(Scored(pr.score, verdict), log', alerts')
  }


  /** A webhook call that raises changes neither the answer nor the audit log. */
  lemma WebhookFailureIsSwallowed(env: Env, p: Payload, log: seq<LogLine>, alerts: seq<AlertAttempt>)
    ensures Predict(env.(webhookFails := true), p, log, alerts).response
         == Predict(env.(webhookFails := false), p, log, alerts).response
    ensures Predict(env.(webhookFails := true), p, log, alerts).log
         == Predict(env.(webhookFails := false), p, log, alerts).log
  {
  }
}
