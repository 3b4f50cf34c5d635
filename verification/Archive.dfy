/**
 Writing and reading the archive (app/archive.py:67-181, 244-343, 369-436,
 app/proxy.py:273-308).
 */
module Archive {
  import opened Common
  import opened Tables
  import opened Deltas

  datatype ArchiveType = TIME_SERIES | REFERENCE | EVENT | NONE

  /** One call of `write_snapshot`; `fileOk` says whether the Parquet file can be written. */
  datatype WriteArgs = WriteArgs(resource: Resource, payload: Bytes, kind: ArchiveType, at: Moment, fileOk: bool)

  // -------------------------------------------------------------- specification

  function KeyOf(d: Deps, w: WriteArgs): Field {
    IdempotencyKey(d, w.resource, w.at, d.sha(w.payload))
  }

  function WithBlob(d: Deps, t: Tables, w: WriteArgs): Tables {
    t.(blobs := InsertIfAbsent(t.blobs, d.sha(w.payload), d.compress(w.payload)))
  }

  /** The id a snapshot has or would get. */
  function SnapshotId(d: Deps, t: Tables, w: WriteArgs): int {
    if KeyOf(d, w) in t.byKey then t.byKey[KeyOf(d, w)] else t.nextSnapshot
  }

  function WithSnapshot(d: Deps, t: Tables, w: WriteArgs): Tables {
    if KeyOf(d, w) in t.byKey then t
    else
      t.(snapshots := t.snapshots[t.nextSnapshot := Snapshot(w.resource, d.sha(w.payload), CompressedJson, None, w.at)],
         byKey := t.byKey[KeyOf(d, w) := t.nextSnapshot],
         nextSnapshot := t.nextSnapshot + 1)
  }

  function WithManifest(t: Tables, contentHash: Field, rowCount: int): Tables {
    if contentHash in t.manifests then t
    else t.(manifests := t.manifests[contentHash := Manifest(t.nextManifest, rowCount)],
            nextManifest := t.nextManifest + 1)
  }

  function Labelled(t: Tables, id: int, manifest: int): Tables {
    if id in t.snapshots then
      t.(snapshots := t.snapshots[id := t.snapshots[id].(manifest := Some(manifest), storage := MarketParquetDelta)])
    else t
  }

  /** Do the deltas of these orders go in? */
  ghost predicate DeltasAccepted(d: Deps, orders: seq<OrderDoc>) {
    d.deltas ==> !HasBadId(orders) && !Clashes(d, Keyed(orders))
  }

  /** Manifest, deltas and label of a snapshot row; None when any of it raises. */
  ghost function WithParquet(d: Deps, t: Tables, id: int, region: int, w: WriteArgs): Option<Tables> {
    match d.parseOrders(w.payload)
    case NotOrders => None
    case Orders(orders) =>
      var h := d.sha(w.payload);
      if (h !in t.manifests && !w.fileOk) || !DeltasAccepted(d, orders) then None
      else
        var t1 := WithManifest(t, h, |orders|);
        var t2 := if d.deltas then WithDeltas(d, t1, id, w.resource.datasource, region, orders, w.at) else t1;
        Some(Labelled(t2, id, t1.manifests[h].id))
  }

  ghost function TimeSeriesSpec(d: Deps, t: Tables, w: WriteArgs): Option<Tables> {
    var t1 := WithSnapshot(d, WithBlob(d, t, w), w);
    if d.regionOf(w.resource.path).Some? && d.parquet then
      WithParquet(d, t1, SnapshotId(d, t, w), d.regionOf(w.resource.path).value, w)
    else Some(t1)
  }

  /** One row per resource; the first sighting is never changed. */
  function WithReference(d: Deps, t: Tables, w: WriteArgs, doc: string): Tables {
    var first := if w.resource in t.references then t.references[w.resource].firstSeen else w.at;
    t.(references := t.references[w.resource := Reference(doc, d.sha(w.payload), first, w.at)])
  }

  /** Insert once. */
  function WithEvent(d: Deps, t: Tables, w: WriteArgs, doc: string): Tables {
    t.(events := InsertIfAbsent(t.events, w.resource, Event(doc, d.sha(w.payload), w.at)))
  }

  /** What is committed when the write succeeds; None when it raises. */
  ghost function WriteSpec(d: Deps, t: Tables, w: WriteArgs): Option<Tables> {
    match w.kind
    case NONE => Some(t)
    case TIME_SERIES => TimeSeriesSpec(d, t, w)
    case REFERENCE =>
      var j := d.parseJson(w.payload);
      if j.None? then None else Some(WithReference(d, t, w, j.value))
    case EVENT =>
      var j := d.parseJson(w.payload);
      if j.None? then None else Some(WithEvent(d, t, w, j.value))
  }

  // ------------------------------------------------------------------- methods

  /** The manifest and delta part; returns the manifest's id. */
  method WriteMarketOrdersParquet(d: Deps, session: Session, id: int, region: int, w: WriteArgs)
    returns (ok: bool, manifest: int)
    modifies session`db
    ensures ok <==> WithParquet(d, old(session.db), id, region, w).Some?
    ensures ok ==> WithParquet(d, old(session.db), id, region, w) == Some(Labelled(session.db, id, manifest))
  {
    var doc := d.parseOrders(w.payload);
    if doc.NotOrders? {
      return false, 0;
    }
    var h := d.sha(w.payload);
    if h in session.db.manifests {
      manifest := session.db.manifests[h].id;
    } else {
      if !w.fileOk {
        return false, 0;
      }
      manifest := session.db.nextManifest;
      session.db := session.db.(
        manifests := session.db.manifests[h := Manifest(manifest, |doc.orders|)],
        nextManifest := manifest + 1);
    }
    assert session.db == WithManifest(old(session.db), h, |doc.orders|);
    assert manifest == session.db.manifests[h].id;
    ok := true;
    if d.deltas {
      ok := session.WriteMarketOrderDeltas(d, id, w.resource.datasource, region, doc.orders, w.at);
    }
  }

  /** The TIME_SERIES branch: blob, row, and for market orders manifest, deltas and label. */
  method WriteTimeSeries(d: Deps, session: Session, w: WriteArgs) returns (ok: bool)
    modifies session`db
    ensures ok <==> TimeSeriesSpec(d, old(session.db), w).Some?
    ensures ok ==> Some(session.db) == TimeSeriesSpec(d, old(session.db), w)
  {
    session.db := WithBlob(d, session.db, w);
    var key := KeyOf(d, w);
    var id;
    if key in session.db.byKey {
      id := session.db.byKey[key];
    } else {
      id := session.db.nextSnapshot;
      session.db := session.db.(
        snapshots := session.db.snapshots[id := Snapshot(w.resource, d.sha(w.payload), CompressedJson, None, w.at)],
        byKey := session.db.byKey[key := id],
        nextSnapshot := id + 1);
    }
    assert id == SnapshotId(d, old(session.db), w);
    assert session.db == WithSnapshot(d, WithBlob(d, old(session.db), w), w);
    var region := d.regionOf(w.resource.path);
    if region.Some? && d.parquet {
      var written, manifest := WriteMarketOrdersParquet(d, session, id, region.value, w);
      if !written {
        return false;
      }
      session.db := Labelled(session.db, id, manifest);
    }
    ok := true;
  }

  /** `write_snapshot`: all of it is committed, or none. */
  method WriteSnapshot(d: Deps, session: Session, w: WriteArgs) returns (ok: bool)
    requires session.db == session.committed
    modifies session
    ensures ok <==> WriteSpec(d, old(session.db), w).Some?
    ensures ok ==> session.db == session.committed && Some(session.db) == WriteSpec(d, old(session.db), w)
    ensures !ok ==> session.committed == old(session.committed)
  {
    match w.kind {
      case NONE =>
        return true;
      case TIME_SERIES =>
        ok := WriteTimeSeries(d, session, w);
        if !ok {
          return;
        }
      case REFERENCE =>
        var j := d.parseJson(w.payload);
        if j.None? {
          return false;
        }
        var t, r := session.db, w.resource;
        if r in t.references {
          var updated := t.references[r].(payload := j.value, contentHash := d.sha(w.payload), lastUpdated := w.at);
          session.db := t.(references := t.references[r := updated]);
        } else {
          session.db := t.(references := t.references[r := Reference(j.value, d.sha(w.payload), w.at, w.at)]);
        }
      case EVENT =>
        var j := d.parseJson(w.payload);
        if j.None? {
          return false;
        }
        var event := Event(j.value, d.sha(w.payload), w.at);
        session.db := session.db.(events := InsertIfAbsent(session.db.events, w.resource, event));
    }
    session.Commit();
    ok := true;
  }

  /** `_archive_response`: a failing write is rolled back and swallowed. */
  method ArchiveResponse(d: Deps, session: Session, w: WriteArgs)
    requires session.db == session.committed
    modifies session
    ensures session.db == session.committed == AfterWrite(d, old(session.db), w)
  {
    var ok := WriteSnapshot(d, session, w);
    if !ok {
      session.Rollback();
    }
  }

  ghost function AfterWrite(d: Deps, t: Tables, w: WriteArgs): Tables {
    match WriteSpec(d, t, w)
    case Some(t') => t'
    case None => t
  }

  // ------------------------------------------------------------------- reading

  ghost predicate Latest(t: Tables, r: Resource, id: int) {
    && id in t.snapshots && t.snapshots[id].resource == r
    && forall i :: i in t.snapshots && t.snapshots[i].resource == r ==>
         t.snapshots[i].fetchedAt <= t.snapshots[id].fetchedAt
  }

  /** The best of the rows looked at so far. */
  predicate Seen(t: Tables, r: Resource, todo: set<int>, found: Option<int>) {
    forall i :: i in t.snapshots && i !in todo && t.snapshots[i].resource == r ==>
      found.Some? && found.value in t.snapshots && t.snapshots[i].fetchedAt <= t.snapshots[found.value].fetchedAt
  }

  lemma HasMember(s: set<int>)
    ensures s == {} || exists i :: i in s
  {
    assert (forall i :: i !in s) ==> s == {};
  }

  /** ORDER BY fetched_at DESC LIMIT 1; among equal moments any row may come first. */
  method NewestSnapshot(t: Tables, r: Resource) returns (found: Option<int>)
    ensures found.Some? ==> Latest(t, r, found.value)
    ensures found.None? ==> NoSnapshot(t, r)
  {
    found := None;
    var todo: set<int> := t.snapshots.Keys;
    while todo != {}
      invariant todo <= t.snapshots.Keys
      invariant found.Some? ==> found.value in t.snapshots && t.snapshots[found.value].resource == r
      invariant Seen(t, r, todo, found)
      decreases |todo|
    {
      HasMember(todo);
      var i :| i in todo;
      todo := todo - {i};
      if t.snapshots[i].resource == r
         && (found.None? || t.snapshots[found.value].fetchedAt < t.snapshots[i].fetchedAt) {
        found := Some(i);
      }
    }
  }

  /** What a snapshot row's blob decodes to. */
  function PayloadOf(d: Deps, t: Tables, id: int): Option<Bytes> {
    if id in t.snapshots && t.snapshots[id].contentHash in t.blobs
    then Some(d.decompress(t.blobs[t.snapshots[id].contentHash])) else None
  }

  /** What is read when no snapshot row gives a payload: the reference row, else the event row. */
  function Fallback(d: Deps, t: Tables, r: Resource): Option<Bytes> {
    if r in t.references && t.references[r].payload != JSON_NULL then Some(d.dumpJson(t.references[r].payload))
    else if r in t.events && t.events[r].payload != JSON_NULL then Some(d.dumpJson(t.events[r].payload))
    else None
  }

  ghost predicate NoSnapshot(t: Tables, r: Resource) {
    forall i :: i in t.snapshots ==> t.snapshots[i].resource != r
  }

  /** What reading may return; the choice is among the newest rows. */
  ghost predicate Reads(d: Deps, t: Tables, r: Resource, payload: Option<Bytes>) {
    if NoSnapshot(t, r) then payload == Fallback(d, t, r)
    else exists id :: Latest(t, r, id)
                      && payload == if PayloadOf(d, t, id).Some? then PayloadOf(d, t, id) else Fallback(d, t, r)
  }

  /** `get_latest_payload`. */
  method GetLatestPayload(d: Deps, session: Session, r: Resource) returns (payload: Option<Bytes>)
    ensures Reads(d, session.db, r, payload)
  {
    var t := session.db;
    var newest := NewestSnapshot(t, r);
    if newest.Some? {
      assert Latest(t, r, newest.value);
      payload := PayloadOf(d, t, newest.value);
      if payload.Some? {
        return;
      }
    }
    if r in t.references && t.references[r].payload != JSON_NULL {
      return Some(d.dumpJson(t.references[r].payload));
    }
    if r in t.events && t.events[r].payload != JSON_NULL {
      return Some(d.dumpJson(t.events[r].payload));
    }
    payload := None;
  }
}
