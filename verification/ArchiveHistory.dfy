/**
 What the archive holds and gives back, in terms of the writes that were made
 (app/archive.py:85-137, 254-277, 305-343, 478-527).
 */
module ArchiveHistory {
  import opened Common
  import opened Tables
  import opened Deltas
  import opened Archive
  import opened ArchiveInv
  import opened ArchiveRuns

  /** What the history keeps of a write. */
  datatype Commit = Commit(done: bool, key: Field, at: Moment)

  ghost function CommitOf(d: Deps, ws: seq<WriteArgs>, k: nat): Commit
    requires k < |ws|
  {
    Commit(Done(d, ws, k), KeyOf(d, ws[k]), ws[k].at)
  }

  ghost predicate Logged(d: Deps, ws: seq<WriteArgs>, cs: seq<Commit>) {
    |cs| == |ws| && forall k {:trigger CommitOf(d, ws, k)} :: 0 <= k < |ws| ==> cs[k] == CommitOf(d, ws, k)
  }

  ghost function Log(d: Deps, ws: seq<WriteArgs>): (cs: seq<Commit>)
    ensures Logged(d, ws, cs)
  {
    seq(|ws|, k requires 0 <= k < |ws| => CommitOf(d, ws, k))
  }

  /** The first committed write of its resource, minute and content. */
  ghost predicate IsFirst(cs: seq<Commit>, k: int) {
    0 <= k < |cs| && cs[k].done && forall j :: 0 <= j < k && cs[j].done ==> cs[j].key != cs[k].key
  }

  ghost predicate MadeBy(cs: seq<Commit>, k: int, key: Field) {
    IsFirst(cs, k) && cs[k].key == key
  }

  ghost predicate Made(cs: seq<Commit>, n: int, key: Field) {
    exists k :: 0 <= k < n && MadeBy(cs, k, key)
  }

  /** Every committed snapshot is there. */
  ghost predicate NothingLost(cs: seq<Commit>, n: int, byKey: map<Field, int>)
    requires n <= |cs|
  {
    forall k :: 0 <= k < n && cs[k].done ==> cs[k].key in byKey
  }

  /** Nothing was made up: every row comes from a first write. */
  ghost predicate NothingInvented(cs: seq<Commit>, n: int, byKey: map<Field, int>) {
    forall key :: key in byKey ==> Made(cs, n, key)
  }

  /** A row keeps the moment of the first write that made it. */
  ghost predicate FirstMoments(cs: seq<Commit>, n: int, byKey: map<Field, int>, rows: Rows) {
    forall k :: 0 <= k < n && IsFirst(cs, k) ==>
      cs[k].key in byKey && byKey[cs[k].key] in rows && rows[byKey[cs[k].key]].fetchedAt == cs[k].at
  }

  /** Rows of market orders are labelled, once Parquet is on. */
  ghost predicate OrdersLabelled(d: Deps, rows: Rows) {
    forall i :: i in rows && d.regionOf(rows[i].resource.path).Some? ==> rows[i].manifest.Some?
  }

  ghost predicate History(d: Deps, cs: seq<Commit>, n: int, t: Tables)
    requires n <= |cs|
  {
    && NothingLost(cs, n, t.byKey) && NothingInvented(cs, n, t.byKey) && FirstMoments(cs, n, t.byKey, t.snapshots)
    && (d.parquet ==> OrdersLabelled(d, t.snapshots))
  }

  lemma NewRow(cs: seq<Commit>, n: nat, t: Tables, t': Tables, next: int)
    requires n < |cs| && cs[n].done && cs[n].key !in t.byKey
    requires NothingLost(cs, n, t.byKey) && NothingInvented(cs, n, t.byKey) && FirstMoments(cs, n, t.byKey, t.snapshots)
    requires t'.byKey == t.byKey[cs[n].key := next] && RowsKept(t, t')
    requires next in t'.snapshots && t'.snapshots[next].fetchedAt == cs[n].at
    ensures NothingLost(cs, n + 1, t'.byKey)
    ensures NothingInvented(cs, n + 1, t'.byKey)
    ensures FirstMoments(cs, n + 1, t'.byKey, t'.snapshots)
  {
    assert MadeBy(cs, n, cs[n].key);
    forall key | key in t'.byKey ensures Made(cs, n + 1, key) {
      if key in t.byKey {
        assert Made(cs, n, key);
        var k :| 0 <= k < n && MadeBy(cs, k, key);
      }
    }
  }

  lemma NoNewRow(cs: seq<Commit>, n: nat, t: Tables, t': Tables)
    requires n < |cs| && (cs[n].done ==> cs[n].key in t.byKey)
    requires NothingLost(cs, n, t.byKey) && NothingInvented(cs, n, t.byKey) && FirstMoments(cs, n, t.byKey, t.snapshots)
    requires t'.byKey == t.byKey && RowsKept(t, t')
    ensures NothingLost(cs, n + 1, t'.byKey)
    ensures NothingInvented(cs, n + 1, t'.byKey)
    ensures FirstMoments(cs, n + 1, t'.byKey, t'.snapshots)
  {
    if cs[n].done {
      assert Made(cs, n, cs[n].key);
      var k :| 0 <= k < n && MadeBy(cs, k, cs[n].key);
      assert !IsFirst(cs, n);
    }
    forall key | key in t'.byKey ensures Made(cs, n + 1, key) {
      assert Made(cs, n, key);
      var k :| 0 <= k < n && MadeBy(cs, k, key);
    }
  }

  lemma LabelsStay(d: Deps, t: Tables, t': Tables, id: int)
    requires OrdersLabelled(d, t.snapshots) && RowsKept(t, t')
    requires forall i :: i in t'.snapshots && i !in t.snapshots ==> i == id
    requires id in t'.snapshots && d.regionOf(t'.snapshots[id].resource.path).Some? ==> t'.snapshots[id].manifest.Some?
    ensures OrdersLabelled(d, t'.snapshots)
  {
  }

  /** The effect of a committed time-series write on row table and index. */
  ghost predicate Written(d: Deps, t: Tables, t': Tables, w: WriteArgs, id: int) {
    && RowsKept(t, t')
    && t'.byKey == t.byKey[KeyOf(d, w) := id]
    && (KeyOf(d, w) in t.byKey ==> t'.byKey == t.byKey && t'.snapshots.Keys == t.snapshots.Keys)
    && (KeyOf(d, w) !in t.byKey ==> t'.snapshots.Keys == t.snapshots.Keys + {id})
    && id in t'.snapshots && t'.snapshots[id].resource == w.resource
    && (KeyOf(d, w) !in t.byKey ==> t'.snapshots[id].fetchedAt == w.at)
    && (d.regionOf(w.resource.path).Some? && d.parquet ==> t'.snapshots[id].manifest.Some?)
  }

  lemma TimeSeriesWritten(d: Deps, t: Tables, w: WriteArgs, now: Moment)
    requires Faithful(d) && Inv(d, t, now) && TimeSeriesSpec(d, t, w).Some?
    ensures Written(d, t, TimeSeriesSpec(d, t, w).value, w, SnapshotId(d, t, w))
  {
    TimeSeriesKeepsRows(d, t, w, now);
    TimeSeriesRow(d, t, w, now);
  }

  lemma WrittenKeepsHistory(d: Deps, cs: seq<Commit>, n: nat, t: Tables, t': Tables, w: WriteArgs, id: int)
    requires n < |cs| && History(d, cs, n, t) && Written(d, t, t', w, id)
    requires cs[n] == Commit(true, KeyOf(d, w), w.at)
    ensures History(d, cs, n + 1, t')
  {
    if KeyOf(d, w) in t.byKey {
      NoNewRow(cs, n, t, t');
    } else {
      NewRow(cs, n, t, t', id);
    }
    if d.parquet {
      LabelsStay(d, t, t', id);
    }
  }

  lemma WriteKeepsHistory(d: Deps, ws: seq<WriteArgs>, cs: seq<Commit>, n: nat, t: Tables)
    requires Faithful(d) && n < |ws| && n < |cs| && t == After(d, ws, n) && Inv(d, t, ws[n].at)
    requires History(d, cs, n, t) && cs[n] == CommitOf(d, ws, n)
    ensures History(d, cs, n + 1, AfterWrite(d, t, ws[n]))
  {
    if cs[n].done {
      TimeSeriesWritten(d, t, ws[n], ws[n].at);
      WrittenKeepsHistory(d, cs, n, t, AfterWrite(d, t, ws[n]), ws[n], SnapshotId(d, t, ws[n]));
    } else {
      OthersKeepTables(d, t, ws[n]);
      NoNewRow(cs, n, t, AfterWrite(d, t, ws[n]));
    }
  }

  lemma {:induction false} RunKeepsHistory(d: Deps, ws: seq<WriteArgs>, cs: seq<Commit>, n: nat, t: Tables)
    requires Faithful(d) && Monotone(ws) && n <= |ws| && Logged(d, ws, cs) && t == After(d, ws, n)
    ensures History(d, cs, n, t)
  {
    if n == 0 {
    } else {
      var t0 := After(d, ws, n - 1);
      RunKeepsHistory(d, ws, cs, n - 1, t0);
      RunKeepsInv(d, ws, n - 1, ws[n - 1].at);
      assert cs[n - 1] == CommitOf(d, ws, n - 1);
      WriteKeepsHistory(d, ws, cs, n - 1, t0);
    }
  }

  // -------------------------------------------------------------- the main claims

  /** The row of a write in later tables. */
  function RowId(d: Deps, t: Tables, w: WriteArgs): int {
    if KeyOf(d, w) in t.byKey then t.byKey[KeyOf(d, w)] else 0
  }

  /** Every committed snapshot stays readable: its row is there for good and its blob decodes to the payload written. */
  lemma CommittedIsReadable(d: Deps, ws: seq<WriteArgs>, k: int, n: nat)
    requires Faithful(d) && Monotone(ws) && 0 <= k < n <= |ws| && Done(d, ws, k)
    ensures RowOf(d, After(d, ws, n), ws[k], RowId(d, After(d, ws, n), ws[k]))
  {
    var t := After(d, ws, n);
    RunKeepsHistory(d, ws, Log(d, ws), n, t);
    RunKeepsInv(d, ws, n, ws[n - 1].at);
    assert Log(d, ws)[k] == CommitOf(d, ws, k);
    RowOfKey(d, t.snapshots, t.byKey, ws[k]);
    BlobGoesIn(d, t.blobs, ws[k].payload);
  }

  /** Every row comes from a committed write, and decodes to what that write was given. */
  lemma RowHasOrigin(d: Deps, ws: seq<WriteArgs>, n: nat, i: int) returns (k: int)
    requires Faithful(d) && Monotone(ws) && n <= |ws| && i in After(d, ws, n).snapshots
    ensures 0 <= k < n && Done(d, ws, k) && IsFirst(Log(d, ws), k)
    ensures RowOf(d, After(d, ws, n), ws[k], i) && After(d, ws, n).snapshots[i].fetchedAt == ws[k].at
  {
    var t := After(d, ws, n);
    RunKeepsHistory(d, ws, Log(d, ws), n, t);
    RunKeepsInv(d, ws, n, if n == 0 then 0 else ws[n - 1].at);
    assert Made(Log(d, ws), n, RowKey(d, t.snapshots[i]));
    k :| 0 <= k < n && MadeBy(Log(d, ws), k, RowKey(d, t.snapshots[i]));
    assert Log(d, ws)[k] == CommitOf(d, ws, k);
    CommittedIsReadable(d, ws, k, n);
  }

  /**
   Lossless and stable: from its commit on, whatever is written later, joining a
   market-orders snapshot's entries with the versions gives, for each order id, the
   snapshot's order of that id and nothing else.
   */
  lemma DeltasAreLosslessForever(d: Deps, ws: seq<WriteArgs>, k: int, n: nat, id: int)
    requires Faithful(d) && Monotone(ws) && 0 <= k < n <= |ws| && Done(d, ws, k)
    requires d.parquet && d.deltas && d.regionOf(ws[k].resource.path).Some?
    ensures var t := After(d, ws, n);
            JoinAt(t.versions, t.entries, ws[k].resource.datasource, RowId(d, t, ws[k]), id)
            == FirstText(OrdersIn(d, ws[k].payload), id)
  {
    var t := After(d, ws, n);
    CommittedIsReadable(d, ws, k, n);
    RunKeepsHistory(d, ws, Log(d, ws), n, t);
    RunKeepsInv(d, ws, n, ws[n - 1].at);
    var i := RowId(d, t, ws[k]);
    assert RecoversAt(d, t.blobs, i, t.snapshots[i], t.versions, t.entries, id);
  }

  /** One version row per content of an order, and it was first seen no later than last. */
  lemma OneVersionPerContent(d: Deps, ws: seq<WriteArgs>, n: nat, k: VersionKey, l: VersionKey)
    requires Faithful(d) && Monotone(ws) && 0 < n <= |ws|
    requires k in After(d, ws, n).versions && l in After(d, ws, n).versions
    ensures var vs := After(d, ws, n).versions;
            && (k.datasource == l.datasource && k.orderId == l.orderId && vs[k].payload == vs[l].payload ==> k == l)
            && vs[k].firstSeen <= vs[k].lastSeen <= ws[n - 1].at
  {
    RunKeepsInv(d, ws, n, ws[n - 1].at);
  }

  // --------------------------------------------------------------- all versions

  /** A committed write of market orders has an order of this datasource, id and content. */
  ghost predicate Brings(d: Deps, ws: seq<WriteArgs>, cs: seq<Commit>, k: int, v: VersionKey)
    requires |cs| == |ws| && 0 <= k < |ws|
  {
    && cs[k].done && d.regionOf(ws[k].resource.path).Some?
    && Mentions(d, ws[k].resource.datasource, OrdersIn(d, ws[k].payload), v)
  }

  ghost predicate Brought(d: Deps, ws: seq<WriteArgs>, cs: seq<Commit>, n: int, v: VersionKey)
    requires |cs| == |ws| && n <= |ws|
  {
    exists k :: 0 <= k < n && Brings(d, ws, cs, k, v)
  }

  /** A committed write's versions: those before, and those of its orders. */
  lemma WriteVersions(d: Deps, t: Tables, w: WriteArgs, now: Moment, v: VersionKey)
    requires Faithful(d) && d.parquet && d.deltas && Inv(d, t, now) && TimeSeriesSpec(d, t, w).Some?
    ensures v in TimeSeriesSpec(d, t, w).value.versions <==>
              || v in t.versions
              || (d.regionOf(w.resource.path).Some? && Mentions(d, w.resource.datasource, OrdersIn(d, w.payload), v))
  {
    RowKeepsRest(d, t, w);
    if d.regionOf(w.resource.path).Some? {
      RowIsThere(d, t, w, now);
      ParquetParts(d, WithRow(d, t, w), w, SnapshotId(d, t, w), d.regionOf(w.resource.path).value);
      UpsertAllKeys(d, t.versions, w.resource.datasource, OrdersIn(d, w.payload), w.at, v);
    }
  }

  lemma BroughtMore(d: Deps, ws: seq<WriteArgs>, cs: seq<Commit>, n: int, v: VersionKey)
    requires |cs| == |ws| && 0 <= n < |ws|
    ensures Brought(d, ws, cs, n + 1, v) <==> Brought(d, ws, cs, n, v) || Brings(d, ws, cs, n, v)
  {
  }

  lemma WriteKeepsVersions(d: Deps, ws: seq<WriteArgs>, cs: seq<Commit>, n: nat, t: Tables, t': Tables, v: VersionKey)
    requires Faithful(d) && d.parquet && d.deltas && Monotone(ws) && n < |ws| && Logged(d, ws, cs)
    requires t == After(d, ws, n) && t' == AfterWrite(d, t, ws[n])
    requires v in t.versions <==> Brought(d, ws, cs, n, v)
    ensures v in t'.versions <==> Brought(d, ws, cs, n + 1, v)
  {
    RunKeepsInv(d, ws, n, ws[n].at);
    assert cs[n] == CommitOf(d, ws, n);
    BroughtMore(d, ws, cs, n, v);
    if cs[n].done {
      WriteVersions(d, t, ws[n], ws[n].at, v);
    } else {
      OthersKeepTables(d, t, ws[n]);
    }
  }

  /** The version table holds exactly one row per datasource, order id and content ever committed. */
  lemma {:induction false} VersionsAreBrought(d: Deps, ws: seq<WriteArgs>, cs: seq<Commit>, n: nat, t: Tables,
                                           v: VersionKey)
    requires Faithful(d) && d.parquet && d.deltas && Monotone(ws) && n <= |ws|
             && Logged(d, ws, cs) && t == After(d, ws, n)
    ensures v in t.versions <==> Brought(d, ws, cs, n, v)
  {
    if n > 0 {
      var t0 := After(d, ws, n - 1);
      VersionsAreBrought(d, ws, cs, n - 1, t0, v);
      WriteKeepsVersions(d, ws, cs, n - 1, t0, t, v);
    }
  }
}
