/**
 * The event store: the `sessions` table keyed by `session_id` and written with
 * INSERT OR REPLACE, and the `fields` table, append-only with AUTOINCREMENT ids.
 * The SQLite connection, commits and file handling are not modelled; a value of
 * `Tables` is the content of the two tables between statements.
 */
module Database {
  import opened Wrappers

  /** The thirteen values `insert_session_data` binds. */
  datatype SessionData = SessionData(
    sessionId: string,
    startTime: int,
    endTime: int,
    submitDelayMs: int,
    fastFill: int,
    mouseMoved: int,
    mouseClickCount: int,
    scrollCount: int,
    viewportChanges: int,
    tabKeyCount: int,
    enterPressed: int,
    deviceType: string,
    fieldFocusOrder: string)

  /** A row of `sessions`: the bound values plus the `scrollDensity` column, NULL unless written. */
  datatype SessionRow = SessionRow(data: SessionData, scrollDensity: Option<real>)

  /** The ten values `insert_field_data` binds. */
  datatype FieldData = FieldData(
    sessionId: string,
    fieldName: string,
    value: string,
    timeSpentMs: int,
    hoverDurationMs: int,
    copy: int,
    paste: int,
    deleteCount: int,
    changes: int,
    focusCount: int)

  /** A row of `fields`: the bound values under the id AUTOINCREMENT gave it. */
  datatype FieldRow = FieldRow(id: nat, data: FieldData)

  /** Both tables; `nextId` is one more than the largest id AUTOINCREMENT has handed out. */
  datatype Tables = Tables(sessions: map<string, SessionRow>, fields: seq<FieldRow>, nextId: nat)

  /** What the tables always satisfy: each session row sits under its own id, and field ids
      are positive, strictly increasing and below `nextId`. */
  ghost predicate Valid(t: Tables)
  {
    && (forall k :: k in t.sessions ==> t.sessions[k].data.sessionId == k)
    && (forall i :: 0 <= i < |t.fields| ==> 1 <= t.fields[i].id < t.nextId)
    && (forall i, j :: 0 <= i < j < |t.fields| ==> t.fields[i].id < t.fields[j].id)
    && t.nextId >= 1
  }

  const EMPTY: Tables := Tables(map[], [], 1)

  /** `create_tables`: CREATE TABLE IF NOT EXISTS on both tables. `db` is None while the
      database file has no tables. */
  function CreateTables(db: Option<Tables>): (r: Tables)
    ensures db.Some? ==> r == db.value
    ensures db.None? ==> r.sessions == map[] && r.fields == [] && Valid(r)
  {
    match db
    case Some(t) => t
    case None => EMPTY
  }

  /** Creating the tables a second time changes nothing. */
  lemma CreateTablesIdempotent(db: Option<Tables>)
    ensures CreateTables(Some(CreateTables(db))) == CreateTables(db)
  {
  }

  /** The row `session_id` selects, if any. */
  function GetSession(t: Tables, id: string): Option<SessionRow>
  {
    if id in t.sessions then Some(t.sessions[id]) else None
  }

  /** `insert_session_data`: INSERT OR REPLACE on the primary key. The whole row is replaced,
      so the unbound `scrollDensity` column reads NULL afterwards. */
  function UpsertSession(t: Tables, d: SessionData): (r: Tables)
    ensures GetSession(r, d.sessionId) == Some(SessionRow(d, None))
    ensures forall k :: k != d.sessionId ==> GetSession(r, k) == GetSession(t, k)
    ensures r.sessions.Keys == t.sessions.Keys + {d.sessionId}
    ensures r.fields == t.fields && r.nextId == t.nextId
    ensures Valid(t) ==> Valid(r)
  {
    t.(sessions := t.sessions[d.sessionId := SessionRow(d, None)])
  }

  /** Upserting the same session id twice keeps only the later values. */
  lemma UpsertLastWriteWins(t: Tables, d1: SessionData, d2: SessionData)
    requires d1.sessionId == d2.sessionId
    ensures UpsertSession(UpsertSession(t, d1), d2) == UpsertSession(t, d2)
  {
    var id := d2.sessionId;
    assert t.sessions[id := SessionRow(d1, None)][id := SessionRow(d2, None)] == t.sessions[id := SessionRow(d2, None)];
  }

  /** `insert_field_data`: a plain INSERT. It always appends a fresh row and never checks that
      the session exists (foreign keys are not switched on), so the sessions are unchanged. */
  function InsertField(t: Tables, d: FieldData): (r: Tables)
    ensures r.sessions == t.sessions
    ensures |r.fields| == |t.fields| + 1 && r.fields[..|t.fields|] == t.fields
    ensures r.fields[|t.fields|].data == d
    ensures r.fields[|t.fields|].id == t.nextId
    ensures Valid(t) ==> Valid(r)
  {
    Tables(t.sessions, t.fields + [FieldRow(t.nextId, d)], t.nextId + 1)
  }

  /** The field rows stored for one session, in insertion order. */
  function RowsFor(rows: seq<FieldRow>, id: string): (r: seq<FieldData>)
    ensures |r| <= |rows|
  {
    if |rows| == 0 then []
    else
      var last := rows[|rows| - 1];
      RowsFor(rows[..|rows| - 1], id) + (if last.data.sessionId == id then [last.data] else [])
  }

  lemma {:induction false} RowsForAppend(rows: seq<FieldRow>, more: seq<FieldRow>, id: string)
    ensures RowsFor(rows + more, id) == RowsFor(rows, id) + RowsFor(more, id)
    decreases |more|
  {
    if |more| == 0 {
      assert rows + more == rows;
    } else {
      var last := more[|more| - 1];
      assert rows + more == (rows + more[..|more| - 1]) + [last];
      assert (rows + more)[..|rows + more| - 1] == rows + more[..|more| - 1];
      RowsForAppend(rows, more[..|more| - 1], id);
    }
  }

  lemma {:induction false} RowsForAllMatching(rows: seq<FieldRow>, id: string)
    requires forall i :: 0 <= i < |rows| ==> rows[i].data.sessionId == id
    ensures |RowsFor(rows, id)| == |rows|
    decreases |rows|
  {
    if |rows| > 0 {
      RowsForAllMatching(rows[..|rows| - 1], id);
    }
  }

  /** Rows appended after `before`, all for session `id`, each add one row for that session. */
  lemma {:induction false} RowsForGrowth(before: seq<FieldRow>, after: seq<FieldRow>, id: string)
    requires |before| <= |after| && after[..|before|] == before
    requires forall i :: |before| <= i < |after| ==> after[i].data.sessionId == id
    ensures |RowsFor(after, id)| == |RowsFor(before, id)| + |after| - |before|
  {
    var added := after[|before|..];
    assert after == before + added;
    forall i | 0 <= i < |added|
      ensures added[i].data.sessionId == id
    {
      assert added[i] == after[|before| + i];
    }
    RowsForAppend(before, added, id);
    RowsForAllMatching(added, id);
  }
}
