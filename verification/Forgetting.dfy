/**
 Which discovered types are found for good (app/collector.py:164-223, app/archive.py:488-527):
 whatever else is archived later, exactly those of the archived orders.
 */
module Forgetting {
  import opened Common
  import opened Tables
  import opened Deltas
  import opened Archive
  import opened ArchiveInv
  import opened ArchiveRuns
  import opened ArchiveHistory
  import opened Discovery

  // -------------------------------------------------------------- what is never lost

  lemma BroughtStays(d: Deps, ws: seq<WriteArgs>, cs: seq<Commit>, n: int, m: int, v: VersionKey)
    requires |cs| == |ws| && n <= m <= |ws| && Brought(d, ws, cs, n, v)
    ensures Brought(d, ws, cs, m, v)
  {
  }

  lemma AccumulatedStays(d: Deps, ws: seq<WriteArgs>, n: nat, m: nat, datasource: Field, region: int, ty: int)
    requires Faithful(d) && Monotone(ws) && n <= m <= |ws| && d.parquet && d.deltas
    requires Accumulated(d, After(d, ws, n), datasource, region, ty)
    ensures Accumulated(d, After(d, ws, m), datasource, region, ty)
  {
    AccumulatedExactly(d, ws, n, datasource, region, ty);
    AccumulatedExactly(d, ws, m, datasource, region, ty);
    var k, id, text :| Archives(d, ws, n, datasource, region, k, id, text) && Parses(d, text, ty);
    BroughtStays(d, ws, Log(d, ws), n, m, VersionKey(datasource, id, d.shaText(text)));
    assert Archives(d, ws, m, datasource, region, k, id, text);
  }

  /**
   Discovery never forgets an archived order: its type is in every later result, whatever
   the latest snapshot holds.
   */
  lemma DiscoveryNeverForgets(d: Deps, ws: seq<WriteArgs>, n: nat, m: nat, datasource: Field, region: int,
                              k: int, id: int, text: string, ty: int, payload: Option<Bytes>, ids: set<int>)
    requires Faithful(d) && Monotone(ws) && n <= m <= |ws| && d.parquet && d.deltas
    requires Archives(d, ws, n, datasource, region, k, id, text) && Parses(d, text, ty)
    requires Discovers(d, After(d, ws, m), datasource, region, payload, Some(ids))
    ensures ty in ids
  {
    AccumulatedExactly(d, ws, n, datasource, region, ty);
    AccumulatedStays(d, ws, n, m, datasource, region, ty);
  }

  // --------------------------------------------------------------- longer runs

  lemma {:induction false} AfterPrefix(d: Deps, ws: seq<WriteArgs>, vs: seq<WriteArgs>, n: nat)
    requires n <= |ws| && ws <= vs
    ensures After(d, ws, n) == After(d, vs, n)
  {
    if n > 0 {
      AfterPrefix(d, ws, vs, n - 1);
    }
  }

  /** A discovery after n writes of a run. */
  ghost predicate Result(d: Deps, ws: seq<WriteArgs>, n: nat, r: Resource,
                         region: int, payload: Option<Bytes>, ids: set<int>) {
    && n <= |ws| && Reads(d, After(d, ws, n), r, payload)
    && Discovers(d, After(d, ws, n), r.datasource, region, payload, Some(ids))
  }

  /** The type is in the result of every discovery from now on, however the run goes on. */
  ghost predicate FoundForGood(d: Deps, ws: seq<WriteArgs>, r: Resource, region: int, ty: int) {
    forall vs, n: nat, payload, ids ::
      ws <= vs && Monotone(vs) && |ws| <= n && Result(d, vs, n, r, region, payload, ids) ==> ty in ids
  }

  /** No row is later than the last write; a row of the last write's minute, if no other write is, is that write's. */
  lemma RowMoment(d: Deps, ws: seq<WriteArgs>, n: nat, i: int)
    requires Faithful(d) && Monotone(ws) && n < |ws| && i in After(d, ws, n + 1).snapshots
    ensures After(d, ws, n + 1).snapshots[i].fetchedAt <= ws[n].at
    ensures Bucket(After(d, ws, n + 1).snapshots[i].fetchedAt) == Bucket(ws[n].at)
            && (forall k :: 0 <= k < n ==> Bucket(ws[k].at) < Bucket(ws[n].at)) ==>
              After(d, ws, n + 1).snapshots[i].fetchedAt == ws[n].at
  {
    var k := RowHasOrigin(d, ws, n + 1, i);
  }

  lemma LastIsLatest(d: Deps, ws: seq<WriteArgs>, n: nat, t: Tables, id: int)
    requires Faithful(d) && Monotone(ws) && n < |ws| && t == After(d, ws, n + 1) && RowOf(d, t, ws[n], id)
    requires forall k :: 0 <= k < n ==> Bucket(ws[k].at) < Bucket(ws[n].at)
    ensures Latest(t, ws[n].resource, id)
  {
    RowMoment(d, ws, n, id);
    forall i | i in t.snapshots && t.snapshots[i].resource == ws[n].resource
      ensures t.snapshots[i].fetchedAt <= t.snapshots[id].fetchedAt
    {
      RowMoment(d, ws, n, i);
    }
  }

  /** A write in a later minute than all others is what is read. */
  lemma LastIsRead(d: Deps, ws: seq<WriteArgs>, n: nat, t: Tables)
    requires Faithful(d) && Monotone(ws) && n < |ws| && Log(d, ws)[n].done && t == After(d, ws, n + 1)
    requires forall k :: 0 <= k < n ==> Bucket(ws[k].at) < Bucket(ws[n].at)
    ensures Reads(d, t, ws[n].resource, Some(ws[n].payload))
  {
    assert Log(d, ws)[n] == CommitOf(d, ws, n);
    CommittedIsReadable(d, ws, n, n + 1);
    LastIsLatest(d, ws, n, t, RowId(d, t, ws[n]));
  }

  /** The accumulated types as a set. */
  ghost function AccumulatedIds(d: Deps, t: Tables, datasource: Field, region: int): (ids: set<int>)
    ensures forall x :: x in ids <==> Accumulated(d, t, datasource, region, x)
  {
    var joined := set e | e in t.entries && t.entries[e].region == region
                          && VersionKey(datasource, e.orderId, t.entries[e].hash) in t.versions
      :: t.versions[VersionKey(datasource, e.orderId, t.entries[e].hash)].payload;
    var ids := set text | text in joined && TypeOf(d, text).Some? :: TypeOf(d, text).value;
    assert forall x :: x in ids <==> Accumulated(d, t, datasource, region, x) by {
      forall x ensures x in ids <==> Accumulated(d, t, datasource, region, x) {
        if x in ids {
          var text :| text in joined && TypeOf(d, text) == Some(x);
          var e :| e in t.entries && Joins(t, datasource, region, e, text);
        }
        if Accumulated(d, t, datasource, region, x) {
          var e, text :| Joins(t, datasource, region, e, text) && TypeOf(d, text) == Some(x);
          assert text in joined;
        }
      }
    }
    ids
  }

  // ----------------------------------------------------- an empty snapshot forgets

  function EmptySnapshot(ws: seq<WriteArgs>, r: Resource, empty: Bytes): WriteArgs {
    WriteArgs(r, empty, TIME_SERIES, if ws == [] then 0 else (Bucket(ws[|ws| - 1].at) + 1) * MINUTE, true)
  }

  /** It is committed, and brings neither entries nor versions. */
  lemma EmptyCommits(d: Deps, t: Tables, w: WriteArgs, now: Moment)
    requires Faithful(d) && Inv(d, t, now) && d.regionOf(w.resource.path).Some? && d.parquet && d.deltas
    requires w.kind == TIME_SERIES && w.fileOk && d.parseOrders(w.payload) == Orders([])
    ensures WriteSpec(d, t, w).Some?
    ensures WriteSpec(d, t, w).value.entries == t.entries && WriteSpec(d, t, w).value.versions == t.versions
  {
    var region := d.regionOf(w.resource.path).value;
    RowKeepsRest(d, t, w);
    RowIsThere(d, t, w, now);
    assert WithParquet(d, WithRow(d, t, w), SnapshotId(d, t, w), region, w).Some?;
    ParquetParts(d, WithRow(d, t, w), w, SnapshotId(d, t, w), region);
  }

  lemma LaterMinute(ws: seq<WriteArgs>, r: Resource, empty: Bytes) returns (vs: seq<WriteArgs>)
    requires Monotone(ws)
    ensures vs == ws + [EmptySnapshot(ws, r, empty)] && Monotone(vs)
    ensures forall k :: 0 <= k < |ws| ==> Bucket(vs[k].at) < Bucket(vs[|ws|].at)
  {
    var w := EmptySnapshot(ws, r, empty);
    vs := ws + [w];
    forall k | 0 <= k < |ws| ensures vs[k].at < w.at && Bucket(vs[k].at) < Bucket(w.at) {
      assert vs[k] == ws[k] && ws[k].at <= ws[|ws| - 1].at;
    }
  }

  lemma EmptyIsDone(d: Deps, vs: seq<WriteArgs>, n: nat, t: Tables, t': Tables)
    requires Faithful(d) && Monotone(vs) && d.parquet && d.deltas && n + 1 == |vs|
    requires t == After(d, vs, n) && t' == After(d, vs, n + 1)
    requires d.regionOf(vs[n].resource.path).Some? && vs[n].kind == TIME_SERIES && vs[n].fileOk
    requires d.parseOrders(vs[n].payload) == Orders([])
    ensures Log(d, vs)[n].done && t'.entries == t.entries && t'.versions == t.versions
  {
    RunKeepsInv(d, vs, n, vs[n].at);
    EmptyCommits(d, t, vs[n], vs[n].at);
    assert Log(d, vs)[n] == CommitOf(d, vs, n);
  }

  /** What an empty snapshot in a later minute leaves to discover. */
  lemma EmptyResult(d: Deps, vs: seq<WriteArgs>, n: nat, r: Resource, region: int, t: Tables) returns (ids: set<int>)
    requires Faithful(d) && Monotone(vs) && d.parquet && d.deltas && d.regionOf(r.path) == Some(region)
    requires n + 1 == |vs| && t == After(d, vs, n) && forall k :: 0 <= k < n ==> Bucket(vs[k].at) < Bucket(vs[n].at)
    requires vs[n].resource == r && vs[n].kind == TIME_SERIES && vs[n].fileOk
             && d.parseOrders(vs[n].payload) == Orders([])
    ensures Result(d, vs, n + 1, r, region, Some(vs[n].payload), ids)
    ensures forall x :: x in ids <==> Accumulated(d, t, r.datasource, region, x)
  {
    var t' := After(d, vs, n + 1);
    EmptyIsDone(d, vs, n, t, t');
    LastIsRead(d, vs, n, t');
    ids := AccumulatedIds(d, t, r.datasource, region);
    SameJoins(t, t', d, r.datasource, region);
  }

  /** After one more, empty, snapshot only what has accumulated is discovered. */
  lemma EmptySnapshotForgets(d: Deps, ws: seq<WriteArgs>, r: Resource, region: int, empty: Bytes)
    returns (vs: seq<WriteArgs>, ids: set<int>)
    requires Faithful(d) && Monotone(ws) && d.parquet && d.deltas && d.regionOf(r.path) == Some(region)
    requires d.parseOrders(empty) == Orders([])
    ensures ws <= vs && Monotone(vs) && Result(d, vs, |ws| + 1, r, region, Some(empty), ids)
    ensures forall x :: x in ids <==> Accumulated(d, After(d, ws, |ws|), r.datasource, region, x)
  {
    vs := LaterMinute(ws, r, empty);
    AfterPrefix(d, ws, vs, |ws|);
    ids := EmptyResult(d, vs, |ws|, r, region, After(d, ws, |ws|));
  }

  lemma SameJoins(t: Tables, t': Tables, d: Deps, datasource: Field, region: int)
    requires t'.entries == t.entries && t'.versions == t.versions
    ensures forall x :: Accumulated(d, t', datasource, region, x) <==> Accumulated(d, t, datasource, region, x)
  {
    assert forall e, text :: Joins(t', datasource, region, e, text) <==> Joins(t, datasource, region, e, text);
  }

  // ------------------------------------------------------------------ main claim

  lemma AccumulatedIsFound(d: Deps, ws: seq<WriteArgs>, vs: seq<WriteArgs>, n: nat, r: Resource, region: int, ty: int,
                           payload: Option<Bytes>, ids: set<int>)
    requires Faithful(d) && Monotone(vs) && d.parquet && d.deltas && ws <= vs && |ws| <= n
    requires Accumulated(d, After(d, ws, |ws|), r.datasource, region, ty) && Result(d, vs, n, r, region, payload, ids)
    ensures ty in ids
  {
    AfterPrefix(d, ws, vs, |ws|);
    AccumulatedStays(d, vs, |ws|, n, r.datasource, region, ty);
  }

  /**
   A type is found for good exactly when some archived order has it: an item with an
   order id, the first of that id in a committed snapshot of the region, whose type text
   parses to it.
   */
  lemma FoundForGoodIff(d: Deps, ws: seq<WriteArgs>, r: Resource, region: int, ty: int, empty: Bytes)
    requires Faithful(d) && Monotone(ws) && d.parquet && d.deltas && d.regionOf(r.path) == Some(region)
    requires d.parseOrders(empty) == Orders([])
    ensures FoundForGood(d, ws, r, region, ty) <==>
              exists k, id, text :: Archives(d, ws, |ws|, r.datasource, region, k, id, text)
                && Parses(d, text, ty)
  {
    AccumulatedExactly(d, ws, |ws|, r.datasource, region, ty);
    var vs, ids := EmptySnapshotForgets(d, ws, r, region, empty);
    if Accumulated(d, After(d, ws, |ws|), r.datasource, region, ty) {
      forall vs', n: nat, payload, ids' | ws <= vs' && Monotone(vs') && |ws| <= n
        && Result(d, vs', n, r, region, payload, ids')
        ensures ty in ids'
      {
        AccumulatedIsFound(d, ws, vs', n, r, region, ty, payload, ids');
      }
    }
  }

  // -------------------------------------------------------------- without deltas

  lemma WriteKeepsEntries(d: Deps, t: Tables, w: WriteArgs)
    requires !(d.deltas && d.parquet)
    ensures AfterWrite(d, t, w).entries == t.entries
  {
    if w.kind == TIME_SERIES && TimeSeriesSpec(d, t, w).Some? {
      RowKeepsRest(d, t, w);
    }
  }

  lemma {:induction false} NothingAccumulates(d: Deps, ws: seq<WriteArgs>, n: nat)
    requires n <= |ws| && !(d.deltas && d.parquet)
    ensures After(d, ws, n).entries == map[]
  {
    if n > 0 {
      NothingAccumulates(d, ws, n - 1);
      WriteKeepsEntries(d, After(d, ws, n - 1), ws[n - 1]);
    }
  }

  /** Without deltas, or without Parquet, the result is exactly the types of the latest payload. */
  lemma WithoutDeltasOnlyLatest(d: Deps, ws: seq<WriteArgs>, n: nat, r: Resource, region: int,
                                payload: Option<Bytes>, ids: set<int>)
    requires !(d.deltas && d.parquet) && Result(d, ws, n, r, region, payload, ids)
    ensures forall x :: x in ids <==> Given(d, Items(d, payload), x)
  {
    NothingAccumulates(d, ws, n);
    assert forall x :: !Accumulated(d, After(d, ws, n), r.datasource, region, x);
  }
}
