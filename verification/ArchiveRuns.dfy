/**
 Whole runs of archive writes under a clock that does not go back
 (app/archive.py:67-181, 244-343, 369-436, 478-527).
 */
module ArchiveRuns {
  import opened Common
  import opened Tables
  import opened Deltas
  import opened Archive
  import opened ArchiveInv

  // ------------------------------------------------------------------- one write

  function WithRow(d: Deps, t: Tables, w: WriteArgs): Tables {
    WithSnapshot(d, WithBlob(d, t, w), w)
  }

  function NewRow(d: Deps, w: WriteArgs): Snapshot {
    Snapshot(w.resource, d.sha(w.payload), CompressedJson, None, w.at)
  }

  lemma RowParts(d: Deps, t: Tables, w: WriteArgs)
    ensures var t1 := WithRow(d, t, w);
            if KeyOf(d, w) in t.byKey then
              t1.snapshots == t.snapshots && t1.byKey == t.byKey && t1.nextSnapshot == t.nextSnapshot
            else && t1.snapshots == t.snapshots[t.nextSnapshot := NewRow(d, w)]
                 && t1.byKey == t.byKey[KeyOf(d, w) := t.nextSnapshot] && t1.nextSnapshot == t.nextSnapshot + 1
  {
    if KeyOf(d, w) in t.byKey {
    } else {
    }
  }

  lemma RowKeepsRest(d: Deps, t: Tables, w: WriteArgs)
    ensures var t1 := WithRow(d, t, w);
            && t1.blobs == InsertIfAbsent(t.blobs, d.sha(w.payload), d.compress(w.payload))
            && t1.manifests == t.manifests && t1.versions == t.versions && t1.entries == t.entries
  {
    if KeyOf(d, w) in t.byKey {
    } else {
    }
  }

  /** Row table and index after the insertion: the new row, or, for a duplicate, no change. */
  ghost predicate Inserted(d: Deps, t: Tables, t1: Tables, w: WriteArgs) {
    && AddsUnlabelled(t.snapshots, t1.snapshots)
    && t1.snapshots.Keys == (if KeyOf(d, w) in t.byKey then t.snapshots.Keys else t.snapshots.Keys + {t.nextSnapshot})
    && t1.byKey == (if KeyOf(d, w) in t.byKey then t.byKey else t.byKey[KeyOf(d, w) := t.nextSnapshot])
    && (forall i :: i in t1.snapshots && i !in t.snapshots ==>
          t1.snapshots[i].contentHash == d.sha(w.payload) && t1.snapshots[i].fetchedAt == w.at)
  }

  lemma RowOrDuplicate(d: Deps, t: Tables, w: WriteArgs)
    requires IndexSound(d, t.snapshots, t.byKey) && IdsBelow(t.snapshots, t.nextSnapshot)
    ensures var t1 := WithRow(d, t, w);
            IndexSound(d, t1.snapshots, t1.byKey) && IdsBelow(t1.snapshots, t1.nextSnapshot) && Inserted(d, t, t1, w)
  {
    RowParts(d, t, w);
    if KeyOf(d, w) !in t.byKey {
      RowGoesIn(d, t.snapshots, t.byKey, t.nextSnapshot, NewRow(d, w));
      FreshRow(d, t, WithRow(d, t, w), w);
    }
  }

  lemma FreshRow(d: Deps, t: Tables, t1: Tables, w: WriteArgs)
    requires IdsBelow(t.snapshots, t.nextSnapshot) && KeyOf(d, w) !in t.byKey
    requires t1.snapshots == t.snapshots[t.nextSnapshot := NewRow(d, w)]
    requires t1.byKey == t.byKey[KeyOf(d, w) := t.nextSnapshot]
    ensures Inserted(d, t, t1, w)
  {
  }

  lemma RowKeepsInv(d: Deps, t: Tables, w: WriteArgs, now: Moment)
    requires Faithful(d) && Inv(d, t, now)
    ensures Inv(d, WithRow(d, t, w), now)
  {
    var t1 := WithRow(d, t, w);
    RowKeepsRest(d, t, w);
    RowOrDuplicate(d, t, w);
    RowPartsKeepInv(d, t, t1, w, now);
  }

  lemma RowPartsKeepInv(d: Deps, t: Tables, t1: Tables, w: WriteArgs, now: Moment)
    requires Faithful(d) && Inv(d, t, now)
    requires t1.blobs == InsertIfAbsent(t.blobs, d.sha(w.payload), d.compress(w.payload))
    requires t1.manifests == t.manifests && t1.versions == t.versions && t1.entries == t.entries
    requires IndexSound(d, t1.snapshots, t1.byKey) && IdsBelow(t1.snapshots, t1.nextSnapshot)
    requires Inserted(d, t, t1, w)
    ensures Inv(d, t1, now)
  {
    BlobGoesIn(d, t.blobs, w.payload);
    UnlabelledKeepLabels(d, t.snapshots, t1.snapshots, t.manifests, t.versions, t.entries);
    if d.deltas {
      UnlabelledKeepRecovery(d, t.blobs, t1.blobs, t.snapshots, t1.snapshots, t.versions, t.entries);
    }
  }

  /** The row a write is about: the one of its resource, its content and its minute. */
  ghost predicate RowOf(d: Deps, t: Tables, w: WriteArgs, id: int) {
    && KeyOf(d, w) in t.byKey && t.byKey[KeyOf(d, w)] == id && id in t.snapshots
    && t.snapshots[id].resource == w.resource
    && t.snapshots[id].contentHash == d.sha(w.payload)
    && Bucket(t.snapshots[id].fetchedAt) == Bucket(w.at)
    && PayloadOf(d, t, id) == Some(w.payload)
  }

  lemma RowIsThere(d: Deps, t: Tables, w: WriteArgs, now: Moment)
    requires Faithful(d) && Inv(d, t, now)
    ensures RowOf(d, WithRow(d, t, w), w, SnapshotId(d, t, w))
  {
    BlobGoesIn(d, t.blobs, w.payload);
    if KeyOf(d, w) in t.byKey {
      RowOfKey(d, t.snapshots, t.byKey, w);
    }
  }

  lemma ParquetParts(d: Deps, t: Tables, w: WriteArgs, id: int, region: int)
    requires id in t.snapshots && WithParquet(d, t, id, region, w).Some?
    ensures var orders := OrdersIn(d, w.payload);
            var t', h := WithParquet(d, t, id, region, w).value, d.sha(w.payload);
            && t'.blobs == t.blobs && t'.byKey == t.byKey && t'.nextSnapshot == t.nextSnapshot
            && (forall g :: g in t.manifests ==> g in t'.manifests && t'.manifests[g] == t.manifests[g])
            && h in t'.manifests
            && t'.snapshots == t.snapshots[id := WithLabel(t.snapshots[id], t'.manifests[h].id)]
            && t'.versions == (if d.deltas then UpsertAll(d, t.versions, w.resource.datasource, orders, w.at)
                               else t.versions)
            && t'.entries == (if d.deltas then InsertAll(d, t.entries, id, region, orders) else t.entries)
  {
  }

  lemma ParquetKeepsInv(d: Deps, t: Tables, t': Tables, w: WriteArgs, id: int, region: int, now: Moment)
    requires Faithful(d) && Inv(d, t, now) && now <= w.at && RowOf(d, t, w, id)
    requires d.regionOf(w.resource.path) == Some(region)
    requires t'.blobs == t.blobs && t'.byKey == t.byKey && t'.nextSnapshot == t.nextSnapshot
    requires forall g :: g in t.manifests ==> g in t'.manifests && t'.manifests[g] == t.manifests[g]
    requires d.sha(w.payload) in t'.manifests
    requires t'.snapshots == t.snapshots[id := WithLabel(t.snapshots[id], t'.manifests[d.sha(w.payload)].id)]
    requires var orders := OrdersIn(d, w.payload);
             && t'.versions == (if d.deltas then UpsertAll(d, t.versions, w.resource.datasource, orders, w.at)
                                else t.versions)
             && t'.entries == (if d.deltas then InsertAll(d, t.entries, id, region, orders) else t.entries)
    ensures Inv(d, t', w.at)
  {
    var m, orders := t'.manifests[d.sha(w.payload)].id, OrdersIn(d, w.payload);
    LabelGoesOn(t.snapshots, t.manifests, t'.manifests, id);
    LabelKeepsIndex(d, t.snapshots, t.byKey, t.nextSnapshot, t.blobs, id, m);
    LabelKeepsEntries(d, t.snapshots, t.versions, t.entries, id, m);
    if d.deltas {
      DeltasKeepEntries(d, t'.snapshots, t.entries, id, region, orders);
      DeltasKeepJoin(d, t'.snapshots, t.versions, t.entries, id, region, orders, now, w.at);
      WriteGrows(d, t.versions, t.entries, w.resource.datasource, id, region, orders, now, w.at);
      DeltasRecover(d, t.blobs, t.snapshots, t'.snapshots, t.versions, t.entries, id, region, now, w.at);
    }
  }

  lemma TimeSeriesKeepsInv(d: Deps, t: Tables, w: WriteArgs, now: Moment)
    requires Faithful(d) && Inv(d, t, now) && now <= w.at && TimeSeriesSpec(d, t, w).Some?
    ensures Inv(d, TimeSeriesSpec(d, t, w).value, w.at)
  {
    RowKeepsInv(d, t, w, now);
    if d.regionOf(w.resource.path).Some? && d.parquet {
      RowIsThere(d, t, w, now);
      var t1, id, region := WithRow(d, t, w), SnapshotId(d, t, w), d.regionOf(w.resource.path).value;
      ParquetParts(d, t1, w, id, region);
      ParquetKeepsInv(d, t1, TimeSeriesSpec(d, t, w).value, w, id, region, now);
    }
  }

  /** Every write keeps the invariant, whether it commits or is rolled back. */
  lemma WriteKeepsInv(d: Deps, t: Tables, w: WriteArgs, now: Moment)
    requires Faithful(d) && Inv(d, t, now) && now <= w.at
    ensures Inv(d, AfterWrite(d, t, w), w.at)
  {
    if w.kind == TIME_SERIES && TimeSeriesSpec(d, t, w).Some? {
      TimeSeriesKeepsInv(d, t, w, now);
    } else {
      OthersKeepTables(d, t, w);
    }
  }

  lemma OthersKeepTables(d: Deps, t: Tables, w: WriteArgs)
    requires w.kind != TIME_SERIES || TimeSeriesSpec(d, t, w).None?
    ensures var t' := AfterWrite(d, t, w);
            && t'.blobs == t.blobs && t'.snapshots == t.snapshots && t'.byKey == t.byKey
            && t'.manifests == t.manifests && t'.versions == t.versions && t'.entries == t.entries
            && t'.nextSnapshot == t.nextSnapshot
  {
  }

  // ------------------------------------------------------------------ whole runs

  /** The committed tables after the first n writes. */
  ghost function After(d: Deps, ws: seq<WriteArgs>, n: nat): Tables
    requires n <= |ws|
  {
    if n == 0 then NoTables() else AfterWrite(d, After(d, ws, n - 1), ws[n - 1])
  }

  ghost predicate Monotone(ws: seq<WriteArgs>) {
    forall i, j :: 0 <= i <= j < |ws| ==> ws[i].at <= ws[j].at
  }

  /** The n-th write is a time-series write that committed. */
  ghost predicate Done(d: Deps, ws: seq<WriteArgs>, k: int) {
    0 <= k < |ws| && ws[k].kind == TIME_SERIES && WriteSpec(d, After(d, ws, k), ws[k]).Some?
  }

  lemma {:induction false} RunKeepsInv(d: Deps, ws: seq<WriteArgs>, n: nat, now: Moment)
    requires Faithful(d) && Monotone(ws) && n <= |ws|
    requires forall k :: 0 <= k < n ==> ws[k].at <= now
    ensures Inv(d, After(d, ws, n), now)
  {
    if n > 0 {
      RunKeepsInv(d, ws, n - 1, ws[n - 1].at);
      WriteKeepsInv(d, After(d, ws, n - 1), ws[n - 1], ws[n - 1].at);
      LaterIsFine(d, After(d, ws, n), ws[n - 1].at, now);
    }
  }

  lemma LaterIsFine(d: Deps, t: Tables, now: Moment, later: Moment)
    requires Inv(d, t, now) && now <= later
    ensures Inv(d, t, later)
  {
  }

  // --------------------------------------------------------- rows are never lost

  /** The same snapshot, perhaps labelled since. */
  ghost predicate SameRow(row: Snapshot, row': Snapshot) {
    && row'.resource == row.resource && row'.contentHash == row.contentHash && row'.fetchedAt == row.fetchedAt
    && (row.manifest.Some? ==> row'.manifest.Some?)
  }

  ghost predicate RowsKept(t: Tables, t': Tables) {
    && (forall i :: i in t.snapshots ==> i in t'.snapshots && SameRow(t.snapshots[i], t'.snapshots[i]))
    && (forall h :: h in t.blobs ==> h in t'.blobs && t'.blobs[h] == t.blobs[h])
    && (forall k :: k in t.byKey ==> k in t'.byKey && t'.byKey[k] == t.byKey[k])
  }

  /** A committed time-series write changes, beyond its row, at most that row's label. */
  lemma ParquetRelabels(d: Deps, t: Tables, w: WriteArgs)
    requires TimeSeriesSpec(d, t, w).Some?
    requires SnapshotId(d, t, w) in WithRow(d, t, w).snapshots
    ensures SnapshotId(d, t, w) in TimeSeriesSpec(d, t, w).value.snapshots
    ensures var t1, t', id := WithRow(d, t, w), TimeSeriesSpec(d, t, w).value, SnapshotId(d, t, w);
            && t'.blobs == t1.blobs && t'.byKey == t1.byKey && t'.nextSnapshot == t1.nextSnapshot
            && (t'.snapshots == t1.snapshots
                || exists m :: t'.snapshots == t1.snapshots[id := WithLabel(t1.snapshots[id], m)])
            && (d.regionOf(w.resource.path).Some? && d.parquet ==> t'.snapshots[id].manifest.Some?)
  {
    var t1, id := WithRow(d, t, w), SnapshotId(d, t, w);
    if d.regionOf(w.resource.path).Some? && d.parquet {
      var m := WithManifest(t1, d.sha(w.payload), |d.parseOrders(w.payload).orders|).manifests[d.sha(w.payload)].id;
      assert TimeSeriesSpec(d, t, w).value.snapshots == t1.snapshots[id := WithLabel(t1.snapshots[id], m)];
    }
  }

  lemma LabelKeepsRows(t: Tables, t1: Tables, t': Tables, id: int)
    requires AddsUnlabelled(t.snapshots, t1.snapshots) && id in t1.snapshots
    requires t'.snapshots == t1.snapshots
             || exists m :: t'.snapshots == t1.snapshots[id := WithLabel(t1.snapshots[id], m)]
    requires forall h :: h in t.blobs ==> h in t'.blobs && t'.blobs[h] == t.blobs[h]
    requires forall k :: k in t.byKey ==> k in t'.byKey && t'.byKey[k] == t.byKey[k]
    ensures RowsKept(t, t') && t'.snapshots.Keys == t1.snapshots.Keys
  {
    forall i | i in t.snapshots ensures i in t'.snapshots && SameRow(t.snapshots[i], t'.snapshots[i]) {
      assert t1.snapshots[i] == t.snapshots[i];
    }
  }

  lemma TimeSeriesKeepsRows(d: Deps, t: Tables, w: WriteArgs, now: Moment)
    requires Faithful(d) && Inv(d, t, now) && TimeSeriesSpec(d, t, w).Some?
    ensures var t' := TimeSeriesSpec(d, t, w).value;
            && RowsKept(t, t')
            && t'.byKey == (if KeyOf(d, w) in t.byKey then t.byKey else t.byKey[KeyOf(d, w) := t.nextSnapshot])
            && t'.snapshots.Keys
               == (if KeyOf(d, w) in t.byKey then t.snapshots.Keys else t.snapshots.Keys + {t.nextSnapshot})
  {
    RowOrDuplicate(d, t, w);
    RowKeepsRest(d, t, w);
    RowIsThere(d, t, w, now);
    ParquetRelabels(d, t, w);
    LabelKeepsRows(t, WithRow(d, t, w), TimeSeriesSpec(d, t, w).value, SnapshotId(d, t, w));
  }

  /** Its row carries the moment of the write that made it, and a market-orders row its label. */
  lemma TimeSeriesRow(d: Deps, t: Tables, w: WriteArgs, now: Moment)
    requires Faithful(d) && Inv(d, t, now) && TimeSeriesSpec(d, t, w).Some?
    ensures var t', id := TimeSeriesSpec(d, t, w).value, SnapshotId(d, t, w);
            && id in t'.snapshots && t'.snapshots[id].resource == w.resource
            && (KeyOf(d, w) !in t.byKey ==> t'.snapshots[id].fetchedAt == w.at)
            && (d.regionOf(w.resource.path).Some? && d.parquet ==> t'.snapshots[id].manifest.Some?)
  {
    RowOrDuplicate(d, t, w);
    RowIsThere(d, t, w, now);
    ParquetRelabels(d, t, w);
  }

  /** A write adds its own row and no other, and none when the snapshot is already in that minute. */
  lemma WriteKeepsRows(d: Deps, t: Tables, w: WriteArgs, now: Moment)
    requires Faithful(d) && Inv(d, t, now)
    ensures var t' := AfterWrite(d, t, w);
            && RowsKept(t, t')
            && (t'.byKey == t.byKey || (KeyOf(d, w) !in t.byKey && t'.byKey == t.byKey[KeyOf(d, w) := t.nextSnapshot]))
            && t'.snapshots.Keys
               == (if t'.byKey == t.byKey then t.snapshots.Keys else t.snapshots.Keys + {t.nextSnapshot})
  {
    if w.kind == TIME_SERIES && TimeSeriesSpec(d, t, w).Some? {
      TimeSeriesKeepsRows(d, t, w, now);
    } else {
      OthersKeepTables(d, t, w);
    }
  }
}
