/**
 What every write keeps in the archive's tables (app/archive.py:85-181, 369-436,
 478-527, app/db.py:49-56, 63, 77, 153-174).
 */
module ArchiveInv {
  import opened Common
  import opened Tables
  import opened Deltas
  import opened Archive

  type Blobs = map<Field, Bytes>
  type Rows = map<int, Snapshot>
  type Manifests = map<Field, Manifest>

  function RowKey(d: Deps, row: Snapshot): Field {
    IdempotencyKey(d, row.resource, row.fetchedAt, row.contentHash)
  }

  /** Every blob is under its own content's hash. */
  ghost predicate BlobsSound(d: Deps, blobs: Blobs) {
    forall h :: h in blobs ==> d.sha(d.decompress(blobs[h])) == h
  }

  ghost predicate RowsHaveBlobs(rows: Rows, blobs: Blobs) {
    forall i :: i in rows ==> rows[i].contentHash in blobs
  }

  /** The unique index and the rows agree, both ways. */
  ghost predicate IndexSound(d: Deps, rows: Rows, byKey: map<Field, int>) {
    && (forall i :: i in rows ==> RowKey(d, rows[i]) in byKey && byKey[RowKey(d, rows[i])] == i)
    && (forall k :: k in byKey ==> byKey[k] in rows && RowKey(d, rows[byKey[k]]) == k)
  }

  ghost predicate IdsBelow(rows: Rows, next: int) {
    forall i :: i in rows ==> i < next
  }

  /** A row is labelled exactly when it names a manifest, and that manifest is of the same content. */
  ghost predicate LabelsSound(rows: Rows, manifests: Manifests) {
    forall i :: i in rows ==> LabelSound(rows[i], manifests)
  }

  ghost predicate LabelSound(row: Snapshot, manifests: Manifests) {
    && (row.storage == MarketParquetDelta <==> row.manifest.Some?)
    && (row.manifest.Some? ==> row.contentHash in manifests && manifests[row.contentHash].id == row.manifest.value)
  }

  /** Only labelled rows have entries, and those carry the region of the row's path. */
  ghost predicate EntriesSound(d: Deps, rows: Rows, es: Entries) {
    forall e :: e in es ==>
      && e.snapshot in rows && rows[e.snapshot].manifest.Some?
      && d.regionOf(rows[e.snapshot].resource.path) == Some(es[e].region)
  }

  /** No entry dangles: its version is there. */
  ghost predicate EntriesJoin(rows: Rows, vs: Versions, es: Entries) {
    forall e :: e in es ==>
      && e.snapshot in rows
      && VersionKey(rows[e.snapshot].resource.datasource, e.orderId, es[e].hash) in vs
  }

  function OrdersIn(d: Deps, payload: Bytes): (rows: seq<OrderDoc>)
    ensures AllOrders(rows)
  {
    match d.parseOrders(payload)
    case NotOrders => []
    case Orders(orders) => Keyed(orders)
  }

  /** Joining a labelled row's entries with the versions gives back the orders in its blob. */
  ghost predicate Recovers(d: Deps, blobs: Blobs, rows: Rows, vs: Versions, es: Entries) {
    forall i, id :: i in rows && rows[i].manifest.Some? ==> RecoversAt(d, blobs, i, rows[i], vs, es, id)
  }

  ghost predicate RecoversAt(d: Deps, blobs: Blobs, i: int, row: Snapshot, vs: Versions, es: Entries, id: int) {
    && row.contentHash in blobs
    && JoinAt(vs, es, row.resource.datasource, i, id)
       == FirstText(OrdersIn(d, d.decompress(blobs[row.contentHash])), id)
  }

  ghost predicate Inv(d: Deps, t: Tables, now: Moment) {
    && BlobsSound(d, t.blobs)
    && RowsHaveBlobs(t.snapshots, t.blobs)
    && IndexSound(d, t.snapshots, t.byKey)
    && IdsBelow(t.snapshots, t.nextSnapshot)
    && LabelsSound(t.snapshots, t.manifests)
    && EntriesSound(d, t.snapshots, t.entries)
    && EntriesJoin(t.snapshots, t.versions, t.entries)
    && VersionsSound(d, t.versions, now)
    && (d.deltas ==> Recovers(d, t.blobs, t.snapshots, t.versions, t.entries))
  }

  // ------------------------------------------------------- the blob and the row

  /** A blob under the hash of a payload decodes to that payload, whoever wrote it. */
  lemma BlobGoesIn(d: Deps, blobs: Blobs, payload: Bytes)
    requires Faithful(d) && BlobsSound(d, blobs)
    ensures var blobs' := InsertIfAbsent(blobs, d.sha(payload), d.compress(payload));
            && BlobsSound(d, blobs')
            && d.sha(payload) in blobs' && d.decompress(blobs'[d.sha(payload)]) == payload
            && forall h :: h in blobs ==> h in blobs' && blobs'[h] == blobs[h]
  {
    if d.sha(payload) in blobs {
      assert d.sha(d.decompress(blobs[d.sha(payload)])) == d.sha(payload);
    }
  }

  /** Rows stay as they are; rows that come are unlabelled. */
  ghost predicate AddsUnlabelled(rows: Rows, rows': Rows) {
    && (forall i :: i in rows ==> i in rows' && rows'[i] == rows[i])
    && (forall i :: i in rows' && i !in rows ==> rows'[i].storage == CompressedJson && rows'[i].manifest == None)
  }

  lemma RowGoesIn(d: Deps, rows: Rows, byKey: map<Field, int>, next: int, row: Snapshot)
    requires IndexSound(d, rows, byKey) && IdsBelow(rows, next) && RowKey(d, row) !in byKey
    ensures IndexSound(d, rows[next := row], byKey[RowKey(d, row) := next])
    ensures IdsBelow(rows[next := row], next + 1)
  {
  }

  /** The row a key leads to has the resource, the content and the minute of that key. */
  lemma RowOfKey(d: Deps, rows: Rows, byKey: map<Field, int>, w: WriteArgs)
    requires Faithful(d) && IndexSound(d, rows, byKey) && KeyOf(d, w) in byKey
    ensures var row := rows[byKey[KeyOf(d, w)]];
            row.resource == w.resource && row.contentHash == d.sha(w.payload) && Bucket(row.fetchedAt) == Bucket(w.at)
  {
    var row := rows[byKey[KeyOf(d, w)]];
    IdempotencyKeyInjective(d, row.resource, w.resource, row.fetchedAt, w.at, row.contentHash, d.sha(w.payload));
  }

  /** Two rows equal in the columns of uq_timeseries_snapshot share their idempotency key: they are one row. */
  lemma SnapshotColumnsUnique(d: Deps, rows: Rows, byKey: map<Field, int>, i: int, j: int)
    requires IndexSound(d, rows, byKey) && i in rows && j in rows
    requires rows[i].resource == rows[j].resource
    requires rows[i].contentHash == rows[j].contentHash
    requires rows[i].fetchedAt == rows[j].fetchedAt
    ensures i == j
  {
    assert byKey[RowKey(d, rows[i])] == byKey[RowKey(d, rows[j])];
  }

  lemma UnlabelledKeepLabels(d: Deps, rows: Rows, rows': Rows, manifests: Manifests, vs: Versions, es: Entries)
    requires AddsUnlabelled(rows, rows')
    requires LabelsSound(rows, manifests) && EntriesSound(d, rows, es) && EntriesJoin(rows, vs, es)
    ensures LabelsSound(rows', manifests) && EntriesSound(d, rows', es) && EntriesJoin(rows', vs, es)
  {
    forall i | i in rows' ensures LabelSound(rows'[i], manifests) {
      if i in rows {
        assert LabelSound(rows[i], manifests);
      }
    }
  }

  lemma UnlabelledKeepRecovery(d: Deps, blobs: Blobs, blobs': Blobs, rows: Rows, rows': Rows, vs: Versions, es: Entries)
    requires AddsUnlabelled(rows, rows') && Recovers(d, blobs, rows, vs, es)
    requires forall h :: h in blobs ==> h in blobs' && blobs'[h] == blobs[h]
    ensures Recovers(d, blobs', rows', vs, es)
  {
    forall i, id | i in rows' && rows'[i].manifest.Some? ensures RecoversAt(d, blobs', i, rows'[i], vs, es, id) {
      assert RecoversAt(d, blobs, i, rows[i], vs, es, id);
    }
  }

  // ------------------------------------------------ manifest, deltas and label

  function WithLabel(row: Snapshot, manifest: int): Snapshot {
    row.(manifest := Some(manifest), storage := MarketParquetDelta)
  }

  /** A label names the manifest of the row's content; a manifest once there is kept. */
  lemma LabelGoesOn(rows: Rows, manifests: Manifests, manifests': Manifests, id: int)
    requires LabelsSound(rows, manifests) && id in rows && rows[id].contentHash in manifests'
    requires forall h :: h in manifests ==> h in manifests' && manifests'[h] == manifests[h]
    ensures LabelsSound(rows[id := WithLabel(rows[id], manifests'[rows[id].contentHash].id)], manifests')
  {
    var rows' := rows[id := WithLabel(rows[id], manifests'[rows[id].contentHash].id)];
    forall i | i in rows' ensures LabelSound(rows'[i], manifests') {
      assert LabelSound(rows[i], manifests);
    }
  }

  lemma LabelKeepsIndex(d: Deps, rows: Rows, byKey: map<Field, int>, next: int, blobs: Blobs, id: int, manifest: int)
    requires IndexSound(d, rows, byKey) && IdsBelow(rows, next) && RowsHaveBlobs(rows, blobs) && id in rows
    ensures var rows' := rows[id := WithLabel(rows[id], manifest)];
            IndexSound(d, rows', byKey) && IdsBelow(rows', next) && RowsHaveBlobs(rows', blobs)
  {
    var rows' := rows[id := WithLabel(rows[id], manifest)];
    assert forall i :: i in rows' ==> RowKey(d, rows'[i]) == RowKey(d, rows[i]);
  }

  lemma LabelKeepsEntries(d: Deps, rows: Rows, vs: Versions, es: Entries, id: int, manifest: int)
    requires EntriesSound(d, rows, es) && EntriesJoin(rows, vs, es) && id in rows
    ensures var rows' := rows[id := WithLabel(rows[id], manifest)];
            EntriesSound(d, rows', es) && EntriesJoin(rows', vs, es)
  {
  }

  /** The deltas of a row go in; `rows` already has its label. */
  lemma DeltasKeepEntries(d: Deps, rows: Rows, es: Entries, id: int, region: int, orders: seq<OrderDoc>)
    requires AllOrders(orders) && EntriesSound(d, rows, es)
    requires id in rows && rows[id].manifest.Some? && d.regionOf(rows[id].resource.path) == Some(region)
    ensures EntriesSound(d, rows, InsertAll(d, es, id, region, orders))
  {
    var es' := InsertAll(d, es, id, region, orders);
    forall e | e in es'
      ensures && e.snapshot in rows && rows[e.snapshot].manifest.Some?
              && d.regionOf(rows[e.snapshot].resource.path) == Some(es'[e].region)
    {
      InsertAllReads(d, es, id, region, orders, e);
    }
  }

  lemma DeltasKeepJoin(d: Deps, rows: Rows, vs: Versions, es: Entries, id: int, region: int, orders: seq<OrderDoc>,
                       now: Moment, at: Moment)
    requires Faithful(d) && AllOrders(orders) && EntriesJoin(rows, vs, es) && id in rows
    requires VersionsSound(d, vs, now) && now <= at
    ensures EntriesJoin(rows, UpsertAll(d, vs, rows[id].resource.datasource, orders, at),
                        InsertAll(d, es, id, region, orders))
  {
    var source := rows[id].resource.datasource;
    var vs', es' := UpsertAll(d, vs, source, orders, at), InsertAll(d, es, id, region, orders);
    UpsertAllSound(d, vs, source, orders, now, at);
    forall e | e in es'
      ensures e.snapshot in rows && VersionKey(rows[e.snapshot].resource.datasource, e.orderId, es'[e].hash) in vs'
    {
      InsertAllReads(d, es, id, region, orders, e);
      if e !in es {
        var i := FirstTextRow(orders, e.orderId);
        assert VersionKeyOf(d, source, orders[i]) in vs';
      }
    }
  }

  /** A write for one snapshot changes no other snapshot's join. */
  lemma OtherJoinsKept(d: Deps, rows: Rows, vs: Versions, es: Entries, datasource: Field, id: int, region: int,
                       orders: seq<OrderDoc>, now: Moment, at: Moment, i: int, o: int)
    requires Faithful(d) && AllOrders(orders) && EntriesJoin(rows, vs, es) && i in rows && i != id
    requires VersionsSound(d, vs, now) && now <= at
    ensures JoinAt(UpsertAll(d, vs, datasource, orders, at), InsertAll(d, es, id, region, orders),
                   rows[i].resource.datasource, i, o)
            == JoinAt(vs, es, rows[i].resource.datasource, i, o)
  {
    UpsertAllSound(d, vs, datasource, orders, now, at);
    InsertAllReads(d, es, id, region, orders, EntryKey(i, o));
  }

  /** The row being written is recovered, whether or not it had entries before. */
  lemma OwnJoinRecovers(d: Deps, blobs: Blobs, rows: Rows, vs: Versions, es: Entries, id: int, region: int,
                        now: Moment, at: Moment, o: int)
    requires Faithful(d) && EntriesJoin(rows, vs, es) && id in rows && rows[id].contentHash in blobs
    requires VersionsSound(d, vs, now) && now <= at
    requires EntryKey(id, o) in es ==> RecoversAt(d, blobs, id, rows[id], vs, es, o)
    ensures var orders := OrdersIn(d, d.decompress(blobs[rows[id].contentHash]));
            var source := rows[id].resource.datasource;
            RecoversAt(d, blobs, id, rows[id], UpsertAll(d, vs, source, orders, at),
                        InsertAll(d, es, id, region, orders), o)
  {
    var orders := OrdersIn(d, d.decompress(blobs[rows[id].contentHash]));
    WriteIsLossless(d, vs, es, rows[id].resource.datasource, id, region, orders, now, at, o);
  }

  /** The decomposition is lossless for the row written and changes no other row's. */
  lemma DeltasRecover(d: Deps, blobs: Blobs, rows: Rows, rows': Rows, vs: Versions, es: Entries, id: int, region: int,
                      now: Moment, at: Moment)
    requires Faithful(d) && Recovers(d, blobs, rows, vs, es)
    requires EntriesSound(d, rows, es) && EntriesJoin(rows, vs, es)
    requires VersionsSound(d, vs, now) && now <= at && id in rows && rows[id].contentHash in blobs
    requires exists m :: rows' == rows[id := WithLabel(rows[id], m)]
    ensures var orders := OrdersIn(d, d.decompress(blobs[rows[id].contentHash]));
            Recovers(d, blobs, rows', UpsertAll(d, vs, rows[id].resource.datasource, orders, at),
                     InsertAll(d, es, id, region, orders))
  {
    var orders, source := OrdersIn(d, d.decompress(blobs[rows[id].contentHash])), rows[id].resource.datasource;
    var vs', es' := UpsertAll(d, vs, source, orders, at), InsertAll(d, es, id, region, orders);
    forall i, o | i in rows' && rows'[i].manifest.Some? ensures RecoversAt(d, blobs, i, rows'[i], vs', es', o) {
      if i == id {
        assert EntryKey(id, o) in es ==> RecoversAt(d, blobs, id, rows[id], vs, es, o);
        OwnJoinRecovers(d, blobs, rows, vs, es, id, region, now, at, o);
      } else {
        assert RecoversAt(d, blobs, i, rows[i], vs, es, o);
        OtherJoinsKept(d, rows, vs, es, source, id, region, orders, now, at, i, o);
      }
    }
  }
}
