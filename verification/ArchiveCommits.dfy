/**
 Which writes are committed, and the details of what they leave, all in terms of the
 writes that were made (app/archive.py:67-181, 369-436, 478-527).
 */
module ArchiveCommits {
  import opened Common
  import opened Tables
  import opened Deltas
  import opened Archive
  import opened ArchiveInv
  import opened ArchiveRuns
  import opened ArchiveHistory

  // -------------------------------------------------------------------- manifests

  /** Write k is of market orders and is committed, with Parquet on. */
  ghost predicate Filed(d: Deps, ws: seq<WriteArgs>, cs: seq<Commit>, k: int)
    requires |cs| == |ws| && 0 <= k < |ws|
  {
    cs[k].done && d.parquet && d.regionOf(ws[k].resource.path).Some?
  }

  /** Some of the first n writes filed this content. */
  ghost predicate FiledBefore(d: Deps, ws: seq<WriteArgs>, cs: seq<Commit>, n: int, payload: Bytes)
    requires |cs| == |ws| && n <= |ws|
  {
    exists k :: 0 <= k < n && Filed(d, ws, cs, k) && ws[k].payload == payload
  }

  /** How many items a payload lists. */
  function Count(d: Deps, payload: Bytes): int {
    match d.parseOrders(payload)
    case NotOrders => 0
    case Orders(orders) => |orders|
  }

  ghost predicate Lists(d: Deps, payload: Bytes, count: int) {
    d.parseOrders(payload).Orders? && count == |d.parseOrders(payload).orders|
  }

  /** The manifests after one filed write. */
  lemma ParquetManifests(d: Deps, t: Tables, id: int, region: int, w: WriteArgs)
    requires WithParquet(d, t, id, region, w).Some?
    ensures d.parseOrders(w.payload).Orders?
    ensures WithParquet(d, t, id, region, w).value.manifests
            == InsertIfAbsent(t.manifests, d.sha(w.payload), Manifest(t.nextManifest, Count(d, w.payload)))
  {
  }

  lemma WriteManifests(d: Deps, t: Tables, w: WriteArgs)
    requires w.kind == TIME_SERIES && TimeSeriesSpec(d, t, w).Some?
    ensures var files := d.parquet && d.regionOf(w.resource.path).Some?;
            && (files ==> d.parseOrders(w.payload).Orders?)
            && AfterWrite(d, t, w).manifests
               == if files then InsertIfAbsent(t.manifests, d.sha(w.payload),
                                               Manifest(t.nextManifest, Count(d, w.payload)))
                  else t.manifests
  {
    RowKeepsRest(d, t, w);
    if d.parquet && d.regionOf(w.resource.path).Some? {
      ParquetManifests(d, WithRow(d, t, w), SnapshotId(d, t, w), d.regionOf(w.resource.path).value, w);
    }
  }

  /** What the manifest table says of a content after n writes. */
  ghost predicate Manifested(d: Deps, ws: seq<WriteArgs>, cs: seq<Commit>, n: int, ms: Manifests, payload: Bytes)
    requires |cs| == |ws| && n <= |ws|
  {
    && (d.sha(payload) in ms <==> FiledBefore(d, ws, cs, n, payload))
    && (d.sha(payload) in ms ==> Lists(d, payload, ms[d.sha(payload)].rowCount))
  }

  lemma ManifestedOn(d: Deps, ws: seq<WriteArgs>, cs: seq<Commit>, n: nat, ms: Manifests, ms': Manifests, next: int,
                     payload: Bytes)
    requires Faithful(d) && |cs| == |ws| && n < |ws| && Manifested(d, ws, cs, n, ms, payload)
    requires Filed(d, ws, cs, n) ==> d.parseOrders(ws[n].payload).Orders?
    requires ms' == if Filed(d, ws, cs, n)
                    then InsertIfAbsent(ms, d.sha(ws[n].payload), Manifest(next, Count(d, ws[n].payload))) else ms
    ensures Manifested(d, ws, cs, n + 1, ms', payload)
  {
    assert FiledBefore(d, ws, cs, n + 1, payload)
           <==> FiledBefore(d, ws, cs, n, payload) || (Filed(d, ws, cs, n) && ws[n].payload == payload);
  }

  lemma OneWriteManifests(d: Deps, ws: seq<WriteArgs>, cs: seq<Commit>, n: nat, t: Tables)
    requires n < |ws| && Logged(d, ws, cs) && t == After(d, ws, n)
    ensures Filed(d, ws, cs, n) ==> d.parseOrders(ws[n].payload).Orders?
    ensures After(d, ws, n + 1).manifests
            == if Filed(d, ws, cs, n)
               then InsertIfAbsent(t.manifests, d.sha(ws[n].payload), Manifest(t.nextManifest, Count(d, ws[n].payload)))
               else t.manifests
  {
    assert cs[n] == CommitOf(d, ws, n);
    if cs[n].done {
      WriteManifests(d, t, ws[n]);
    } else {
      OthersKeepTables(d, t, ws[n]);
    }
  }

  /** A manifest is there exactly for the contents that were filed, and counts the items of that content. */
  lemma {:induction false} ManifestIffFiled(d: Deps, ws: seq<WriteArgs>, cs: seq<Commit>, n: nat, t: Tables,
                                            payload: Bytes)
    requires Faithful(d) && n <= |ws| && Logged(d, ws, cs) && t == After(d, ws, n)
    ensures Manifested(d, ws, cs, n, t.manifests, payload)
  {
    if n > 0 {
      var t0 := After(d, ws, n - 1);
      ManifestIffFiled(d, ws, cs, n - 1, t0, payload);
      OneWriteManifests(d, ws, cs, n - 1, t0);
      ManifestedOn(d, ws, cs, n - 1, t0.manifests, t.manifests, t0.nextManifest, payload);
    }
  }

  // ------------------------------------------------------------ what is committed

  /** Two of the kept orders, less than a batch apart and in the same batch, have one id and one content. */
  ghost predicate TwiceInBatch(kept: seq<OrderDoc>, i: int, j: int) {
    && 0 <= i < j < |kept| && kept[i] == kept[j]
    && exists b :: 1000 * b <= i && j < 1000 * (b + 1)
  }

  lemma ClashIsTwice(d: Deps, kept: seq<OrderDoc>)
    requires Faithful(d) && AllOrders(kept)
    ensures Clashes(d, kept) <==> exists i, j :: TwiceInBatch(kept, i, j)
  {
    if i, j :| 0 <= i < j < |kept| && Clash(d, kept, i, j) {
      assert 1000 * (i / 1000) <= i && j < 1000 * (i / 1000 + 1);
      assert TwiceInBatch(kept, i, j);
    }
    if i, j :| TwiceInBatch(kept, i, j) {
      var b :| 1000 * b <= i && j < 1000 * (b + 1);
      assert i / 1000 == b == j / 1000;
      assert Clash(d, kept, i, j);
    }
  }

  /** The deltas of a list go in: every order id is an integer, and no batch has one order twice. */
  ghost predicate Splits(orders: seq<OrderDoc>) {
    && (forall i :: 0 <= i < |orders| ==> !orders[i].BadId?)
    && forall i, j :: !TwiceInBatch(Keyed(orders), i, j)
  }

  /** What it takes to commit write k. */
  ghost predicate Commits(d: Deps, ws: seq<WriteArgs>, k: nat)
    requires k < |ws|
  {
    var w := ws[k];
    match w.kind
    case NONE => true
    case REFERENCE => d.parseJson(w.payload).Some?
    case EVENT => d.parseJson(w.payload).Some?
    case TIME_SERIES =>
      d.parquet && d.regionOf(w.resource.path).Some? ==>
        && d.parseOrders(w.payload).Orders?
        && (w.fileOk || FiledBefore(d, ws, Log(d, ws), k, w.payload))
        && (d.deltas ==> Splits(d.parseOrders(w.payload).orders))
  }

  /**
   A write is committed exactly if: a document is JSON; market orders, with Parquet on,
   are a list whose file can be written or was before, and with deltas on every order id
   is an integer and no batch has one order twice; any other snapshot always.
   */
  lemma CommittedIff(d: Deps, ws: seq<WriteArgs>, k: nat)
    requires Faithful(d) && k < |ws|
    ensures WriteSpec(d, After(d, ws, k), ws[k]).Some? <==> Commits(d, ws, k)
  {
    var t, w := After(d, ws, k), ws[k];
    if w.kind == TIME_SERIES {
      ManifestIffFiled(d, ws, Log(d, ws), k, t, w.payload);
      RowKeepsRest(d, t, w);
      if d.parseOrders(w.payload).Orders? {
        var orders := d.parseOrders(w.payload).orders;
        ClashIsTwice(d, Keyed(orders));
        assert DeltasAccepted(d, orders) <==> (d.deltas ==> Splits(orders));
      }
    }
  }

  // ------------------------------------------------------------- what is recovered

  /** From its commit on, an order that is the first of its id in a snapshot is joined back from it. */
  lemma OrderIsRecovered(d: Deps, ws: seq<WriteArgs>, k: nat, n: nat, orders: seq<OrderDoc>, i: nat)
    requires Faithful(d) && Monotone(ws) && k < n <= |ws| && Filed(d, ws, Log(d, ws), k) && d.deltas
    requires d.parseOrders(ws[k].payload) == Orders(orders)
    requires i < |orders| && orders[i].Order? && FirstOfId(orders, i, orders[i].id)
    ensures var t := After(d, ws, n);
            JoinAt(t.versions, t.entries, ws[k].resource.datasource, RowId(d, t, ws[k]), orders[i].id)
            == Some(orders[i].text)
  {
    assert Log(d, ws)[k] == CommitOf(d, ws, k);
    DeltasAreLosslessForever(d, ws, k, n, orders[i].id);
    FirstTextKeyed(orders, orders[i].id);
    FirstTextIsFirst(orders, orders[i].id, i);
  }

  /** An id that no order of a snapshot has is joined to nothing. */
  lemma NothingMadeUp(d: Deps, ws: seq<WriteArgs>, k: nat, n: nat, orders: seq<OrderDoc>, id: int)
    requires Faithful(d) && Monotone(ws) && k < n <= |ws| && Filed(d, ws, Log(d, ws), k) && d.deltas
    requires d.parseOrders(ws[k].payload) == Orders(orders)
    requires forall i :: 0 <= i < |orders| && orders[i].Order? ==> orders[i].id != id
    ensures var t := After(d, ws, n);
            JoinAt(t.versions, t.entries, ws[k].resource.datasource, RowId(d, t, ws[k]), id) == None
  {
    assert Log(d, ws)[k] == CommitOf(d, ws, k);
    DeltasAreLosslessForever(d, ws, k, n, id);
    FirstTextKeyed(orders, id);
    FirstTextIsNone(orders, id);
  }

  // -------------------------------------------------------------- first and last seen

  /** A version row before and after a write at `at` that does or does not have it. */
  ghost predicate Sees(vs: Versions, vs': Versions, v: VersionKey, has: bool, at: Moment) {
    if has then v in vs' && vs'[v].lastSeen == at && vs'[v].firstSeen == if v in vs then vs[v].firstSeen else at
    else (v in vs' <==> v in vs) && (v in vs ==> vs'[v] == vs[v])
  }

  lemma WriteSees(d: Deps, ws: seq<WriteArgs>, cs: seq<Commit>, k: nat, t: Tables, v: VersionKey)
    requires Faithful(d) && Monotone(ws) && d.parquet && d.deltas
    requires k < |ws| && Logged(d, ws, cs) && t == After(d, ws, k)
    ensures Sees(t.versions, After(d, ws, k + 1).versions, v, Brings(d, ws, cs, k, v), ws[k].at)
  {
    RunKeepsInv(d, ws, k, ws[k].at);
    assert cs[k] == CommitOf(d, ws, k);
    if cs[k].done {
      TimeSeriesSees(d, t, ws[k], v);
    } else {
      OthersKeepTables(d, t, ws[k]);
    }
  }

  lemma TimeSeriesSees(d: Deps, t: Tables, w: WriteArgs, v: VersionKey)
    requires Faithful(d) && Inv(d, t, w.at) && d.parquet && d.deltas && TimeSeriesSpec(d, t, w).Some?
    ensures Sees(t.versions, TimeSeriesSpec(d, t, w).value.versions, v,
                 d.regionOf(w.resource.path).Some? && Mentions(d, w.resource.datasource, OrdersIn(d, w.payload), v),
                 w.at)
  {
    RowKeepsRest(d, t, w);
    if d.regionOf(w.resource.path).Some? {
      RowIsThere(d, t, w, w.at);
      ParquetParts(d, WithRow(d, t, w), w, SnapshotId(d, t, w), d.regionOf(w.resource.path).value);
      UpsertAllReads(d, t.versions, w.resource.datasource, OrdersIn(d, w.payload), w.at, v);
    }
  }

  /** Committed write k has this version. */
  ghost predicate Has(d: Deps, ws: seq<WriteArgs>, k: int, v: VersionKey)
    requires 0 <= k < |ws|
  {
    Brings(d, ws, Log(d, ws), k, v)
  }

  /** Which writes have it. */
  ghost predicate Haves(d: Deps, ws: seq<WriteArgs>, has: seq<bool>, v: VersionKey) {
    |has| == |ws| && forall k {:trigger Has(d, ws, k, v)} :: 0 <= k < |ws| ==> has[k] == Has(d, ws, k, v)
  }

  ghost predicate IsFirstOf(has: seq<bool>, k: int) {
    0 <= k < |has| && has[k] && forall j :: 0 <= j < k ==> !has[j]
  }

  ghost predicate IsLastOf(has: seq<bool>, n: int, k: int) {
    0 <= k < n <= |has| && has[k] && forall j :: k < j < n ==> !has[j]
  }

  ghost predicate IsPresent(has: seq<bool>, n: int, vs: Versions, v: VersionKey)
    requires n <= |has|
  {
    v in vs <==> exists k :: 0 <= k < n && has[k]
  }

  ghost predicate FirstSeen(ws: seq<WriteArgs>, has: seq<bool>, n: int, vs: Versions, v: VersionKey)
    requires |has| == |ws| && n <= |ws|
  {
    forall k :: 0 <= k < n && IsFirstOf(has, k) ==> v in vs && vs[v].firstSeen == ws[k].at
  }

  ghost predicate LastSeen(ws: seq<WriteArgs>, has: seq<bool>, n: int, vs: Versions, v: VersionKey)
    requires |has| == |ws| && n <= |ws|
  {
    forall k :: IsLastOf(has, n, k) ==> v in vs && vs[v].lastSeen == ws[k].at
  }

  /** A version row is there if one of the first n writes has it, and bears the moments of the first and the last. */
  ghost predicate Bears(ws: seq<WriteArgs>, has: seq<bool>, n: nat, vs: Versions, v: VersionKey)
    requires |has| == |ws| && n <= |ws|
  {
    IsPresent(has, n, vs, v) && FirstSeen(ws, has, n, vs, v) && LastSeen(ws, has, n, vs, v)
  }

  lemma LastSeenOn(ws: seq<WriteArgs>, has: seq<bool>, n: nat, m: nat, vs: Versions, vs': Versions, v: VersionKey)
    requires |has| == |ws| && n + 1 == m <= |ws| && LastSeen(ws, has, n, vs, v) && Sees(vs, vs', v, has[n], ws[n].at)
    ensures LastSeen(ws, has, m, vs', v)
  {
    forall k | IsLastOf(has, m, k) ensures v in vs' && vs'[v].lastSeen == ws[k].at {
      if k < n {
        assert !has[n];
        assert IsLastOf(has, n, k);
      }
    }
  }

  lemma FirstSeenOn(ws: seq<WriteArgs>, has: seq<bool>, n: nat, m: nat, vs: Versions, vs': Versions, v: VersionKey)
    requires |has| == |ws| && n + 1 == m <= |ws| && IsPresent(has, n, vs, v) && FirstSeen(ws, has, n, vs, v)
    requires Sees(vs, vs', v, has[n], ws[n].at)
    ensures FirstSeen(ws, has, m, vs', v) && IsPresent(has, m, vs', v)
  {
    forall k | 0 <= k < m && IsFirstOf(has, k) ensures v in vs' && vs'[v].firstSeen == ws[k].at {
      if k < n {
        assert v in vs && vs[v].firstSeen == ws[k].at;
      }
    }
    if has[n] { assert exists k :: 0 <= k < m && has[k]; }
  }

  /** A version table as it grows, write by write. */
  ghost predicate SeenThrough(ws: seq<WriteArgs>, has: seq<bool>, tables: seq<Versions>, v: VersionKey)
    requires |has| == |ws| && |tables| == |ws| + 1
  {
    && tables[0] == map[]
    && forall k {:trigger has[k]} :: 0 <= k < |ws| ==> Sees(tables[k], tables[k + 1], v, has[k], ws[k].at)
  }

  lemma {:induction false} BearsThrough(ws: seq<WriteArgs>, has: seq<bool>, tables: seq<Versions>, n: nat,
                                        v: VersionKey)
    requires |has| == |ws| && n <= |ws| && |tables| == |ws| + 1 && SeenThrough(ws, has, tables, v)
    ensures Bears(ws, has, n, tables[n], v)
  {
    if n > 0 {
      BearsThrough(ws, has, tables, n - 1, v);
      assert Sees(tables[n - 1], tables[n], v, has[n - 1], ws[n - 1].at);
      LastSeenOn(ws, has, n - 1, n, tables[n - 1], tables[n], v);
      FirstSeenOn(ws, has, n - 1, n, tables[n - 1], tables[n], v);
    }
  }

  /** The version table after k writes. */
  ghost predicate IsAfter(d: Deps, ws: seq<WriteArgs>, k: nat, vs: Versions)
    requires k <= |ws|
  {
    vs == After(d, ws, k).versions
  }

  ghost predicate AllAfter(d: Deps, ws: seq<WriteArgs>, tables: seq<Versions>) {
    |tables| == |ws| + 1 && forall k {:trigger IsAfter(d, ws, k, tables[k])} :: 0 <= k <= |ws| ==>
                              IsAfter(d, ws, k, tables[k])
  }

  lemma NextVersions(d: Deps, ws: seq<WriteArgs>, has: seq<bool>, tables: seq<Versions>, k: nat, v: VersionKey)
    requires Faithful(d) && Monotone(ws) && d.parquet && d.deltas && k < |ws|
    requires Haves(d, ws, has, v) && AllAfter(d, ws, tables)
    ensures Sees(tables[k], tables[k + 1], v, has[k], ws[k].at)
  {
    assert IsAfter(d, ws, k, tables[k]) && IsAfter(d, ws, k + 1, tables[k + 1]) && has[k] == Has(d, ws, k, v);
    WriteSees(d, ws, Log(d, ws), k, After(d, ws, k), v);
  }

  /** So it is after every run. */
  lemma VersionMoments(d: Deps, ws: seq<WriteArgs>, has: seq<bool>, tables: seq<Versions>, n: nat, v: VersionKey)
    requires Faithful(d) && Monotone(ws) && d.parquet && d.deltas && n <= |ws|
    requires Haves(d, ws, has, v) && AllAfter(d, ws, tables)
    ensures Bears(ws, has, n, tables[n], v)
  {
    assert IsAfter(d, ws, 0, tables[0]);
    forall k {:trigger has[k]} | 0 <= k < |ws| ensures Sees(tables[k], tables[k + 1], v, has[k], ws[k].at) {
      NextVersions(d, ws, has, tables, k, v);
    }
    BearsThrough(ws, has, tables, n, v);
  }
}
