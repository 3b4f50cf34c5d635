/**
 Reference and event rows over whole runs (app/archive.py:139-179, app/db.py:96-127): a
 reference row is the last write of its resource and remembers the first sighting, an
 event row is the first write and is never touched again.
 */
module ArchiveRecords {
  import opened Common
  import opened Tables
  import opened Archive
  import opened ArchiveRuns

  /** Write k stores a record of this kind for r: its payload is JSON. */
  predicate Stores(d: Deps, ws: seq<WriteArgs>, k: int, kind: ArchiveType, r: Resource)
    requires 0 <= k < |ws|
  {
    ws[k].kind == kind && ws[k].resource == r && d.parseJson(ws[k].payload).Some?
  }

  /** The first write from i on that stores such a record, or n. */
  function FirstStore(d: Deps, ws: seq<WriteArgs>, n: nat, i: nat, kind: ArchiveType, r: Resource): (k: nat)
    requires i <= n <= |ws|
    ensures i <= k <= n && (k < n ==> Stores(d, ws, k, kind, r))
    ensures forall j :: i <= j < k ==> !Stores(d, ws, j, kind, r)
    decreases n - i
  {
    if i == n || Stores(d, ws, i, kind, r) then i else FirstStore(d, ws, n, i + 1, kind, r)
  }

  lemma ParquetKeepsRecords(d: Deps, t: Tables, id: int, region: int, w: WriteArgs)
    requires WithParquet(d, t, id, region, w).Some?
    ensures var t' := WithParquet(d, t, id, region, w).value;
            t'.references == t.references && t'.events == t.events
  {
  }

  /** Each kind of write touches only its own table. */
  lemma KindsApart(d: Deps, t: Tables, w: WriteArgs)
    ensures w.kind != REFERENCE ==> AfterWrite(d, t, w).references == t.references
    ensures w.kind != EVENT ==> AfterWrite(d, t, w).events == t.events
  {
    if w.kind == TIME_SERIES && TimeSeriesSpec(d, t, w).Some? {
      if d.regionOf(w.resource.path).Some? && d.parquet {
        ParquetKeepsRecords(d, WithRow(d, t, w), SnapshotId(d, t, w), d.regionOf(w.resource.path).value, w);
      }
    }
  }

  /** The last of the first n writes that stores such a record, or n. */
  function LastStore(d: Deps, ws: seq<WriteArgs>, n: nat, kind: ArchiveType, r: Resource): (k: Option<nat>)
    requires n <= |ws|
    ensures k.Some? ==> k.value < n && Stores(d, ws, k.value, kind, r)
    ensures forall j :: (if k.Some? then k.value + 1 else 0) <= j < n ==> !Stores(d, ws, j, kind, r)
  {
    if n == 0 then None else if Stores(d, ws, n - 1, kind, r) then Some(n - 1) else LastStore(d, ws, n - 1, kind, r)
  }

  lemma ReferenceGoesIn(d: Deps, t: Tables, w: WriteArgs)
    requires w.kind == REFERENCE
    ensures AfterWrite(d, t, w).references
            == if d.parseJson(w.payload).None? then t.references
               else WithReference(d, t, w, d.parseJson(w.payload).value).references
  {
  }

  lemma ReferenceStep(d: Deps, t: Tables, w: WriteArgs, r: Resource)
    ensures var rows, rows' := t.references, AfterWrite(d, t, w).references;
            if w.kind == REFERENCE && w.resource == r && d.parseJson(w.payload).Some? then
              && r in rows'
              && rows'[r] == Reference(d.parseJson(w.payload).value, d.sha(w.payload),
                                       if r in rows then rows[r].firstSeen else w.at, w.at)
            else (r in rows' <==> r in rows) && (r in rows ==> rows'[r] == rows[r])
  {
    if w.kind != REFERENCE {
      KindsApart(d, t, w);
    } else {
      ReferenceGoesIn(d, t, w);
    }
  }

  lemma EventGoesIn(d: Deps, t: Tables, w: WriteArgs)
    requires w.kind == EVENT
    ensures AfterWrite(d, t, w).events
            == if d.parseJson(w.payload).None? then t.events
               else InsertIfAbsent(t.events, w.resource, Event(d.parseJson(w.payload).value, d.sha(w.payload), w.at))
  {
  }

  lemma EventStep(d: Deps, t: Tables, w: WriteArgs, r: Resource)
    ensures var rows, rows' := t.events, AfterWrite(d, t, w).events;
            if r !in rows && w.kind == EVENT && w.resource == r && d.parseJson(w.payload).Some? then
              r in rows' && rows'[r] == Event(d.parseJson(w.payload).value, d.sha(w.payload), w.at)
            else (r in rows' <==> r in rows) && (r in rows ==> rows'[r] == rows[r])
  {
    if w.kind != EVENT {
      KindsApart(d, t, w);
    } else {
      EventGoesIn(d, t, w);
    }
  }

  /** The reference row: there from the first write on, holding the content of the last one. */
  lemma {:induction false} ReferenceIsLatest(d: Deps, ws: seq<WriteArgs>, n: nat, r: Resource)
    requires n <= |ws|
    ensures var rows, first := After(d, ws, n).references, FirstStore(d, ws, n, 0, REFERENCE, r);
            var last := LastStore(d, ws, n, REFERENCE, r);
            && (r in rows <==> first < n) && (r in rows <==> last.Some?)
            && (r in rows ==> && Some(rows[r].payload) == d.parseJson(ws[last.value].payload)
                              && rows[r].contentHash == d.sha(ws[last.value].payload)
                              && rows[r].firstSeen == ws[first].at && rows[r].lastUpdated == ws[last.value].at)
  {
    if n > 0 {
      ReferenceIsLatest(d, ws, n - 1, r);
      FirstStoreGrows(d, ws, n, 0, REFERENCE, r);
      ReferenceStep(d, After(d, ws, n - 1), ws[n - 1], r);
    }
  }

  lemma {:induction false} FirstStoreGrows(d: Deps, ws: seq<WriteArgs>, n: nat, i: nat, kind: ArchiveType, r: Resource)
    requires i < n <= |ws|
    ensures var k, k' := FirstStore(d, ws, n - 1, i, kind, r), FirstStore(d, ws, n, i, kind, r);
            if k < n - 1 then k' == k else k' == if Stores(d, ws, n - 1, kind, r) then n - 1 else n
    decreases n - i
  {
    if i < n - 1 && !Stores(d, ws, i, kind, r) {
      FirstStoreGrows(d, ws, n, i + 1, kind, r);
    }
  }

  /** The event row: the first write of its resource, whatever is written later. */
  lemma {:induction false} EventIsFirst(d: Deps, ws: seq<WriteArgs>, n: nat, r: Resource)
    requires n <= |ws|
    ensures var rows, first := After(d, ws, n).events, FirstStore(d, ws, n, 0, EVENT, r);
            && (r in rows <==> first < n)
            && (r in rows ==> Some(rows[r].payload) == d.parseJson(ws[first].payload)
                              && rows[r].contentHash == d.sha(ws[first].payload) && rows[r].fetchedAt == ws[first].at)
  {
    if n > 0 {
      EventIsFirst(d, ws, n - 1, r);
      FirstStoreGrows(d, ws, n, 0, EVENT, r);
      EventStep(d, After(d, ws, n - 1), ws[n - 1], r);
    }
  }
}
