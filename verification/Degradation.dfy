/**
 What a degraded request is served (app/proxy.py:215-227, app/archive.py:244-273): the
 stale copy, else what the archive's latest snapshot says, else an error.
 */
module Degradation {
  import opened Common
  import opened Cache
  import opened Dispatch
  import opened DispatchRuns
  import Archive
  import ArchiveFallback
  import ArchiveHistory
  import ArchiveLatest
  import ArchiveRuns
  import Lifetimes
  import Tables

  /** A task in degraded mode makes its fallback reads. */
  ghost predicate FallsBack(u: Setup, w: World, x: Tick) {
    Lifetimes.Takes(u, w, x) && w.tasks[x.e.t].phase.Degraded?
  }

  /** The reply it gets to. */
  ghost function Served(u: Setup, w: World, x: Tick): (reply: Reply)
    requires CacheInv(u, w) && FallsBack(u, w, x)
    ensures reply.Reply? && Lifetimes.After(u, w, x) == Finished(reply, Some(w.tasks[x.e.t].phase.f), None)
  {
    Lifetimes.After(u, w, x).reply
  }

  /** The reply, if this is what the archive read gave. */
  ghost function Resort(w: World, x: Tick, archived: Option<Bytes>): Reply
    requires Enabled(w, x.e) && x.e.Proceed? && w.tasks[x.e.t].phase.Degraded?
  {
    var k := KeyOf(w, x.e);
    if StaleUntil(ArgsIn(w.last, k), x.at) then Reply(200, w.last[k].args.body, STALE, None)
    else if archived.Some? && archived.value != [] then Reply(200, archived.value, ARCHIVE_FALLBACK, None)
    else Reply(w.tasks[x.e.t].phase.f.resp.status, x.e.fb.envelope, ERROR, None)
  }

  lemma ServesResort(u: Setup, w: World, x: Tick)
    requires CacheInv(u, w) && FallsBack(u, w, x)
    ensures Lifetimes.After(u, w, x)
            == Finished(Resort(w, x, x.e.fb.archived), Some(w.tasks[x.e.t].phase.f), None)
  {
    StaleIsLast(u, w, KeyOf(w, x.e), x.at);
  }

  /**
   For a resource with committed snapshots, write k being the latest of the first n: a
   live stale copy goes first; without one the reply carries a payload written in the
   minute of the latest write, an empty one making it an error; and it is the latest
   write itself exactly if nothing overtook that.
   */
  lemma ArchiveServesLatest(u: Setup, w: World, x: Tick, d: Tables.Deps, ws: seq<Archive.WriteArgs>, n: nat,
                            r: Tables.Resource, k: int)
    returns (j: int)
    requires CacheInv(u, w) && FallsBack(u, w, x) && Tables.Faithful(d) && ArchiveRuns.Monotone(ws) && n <= |ws|
    requires Archive.Reads(d, ArchiveRuns.After(d, ws, n), r, x.e.fb.archived)
    requires ArchiveLatest.IsLatest(ArchiveHistory.Log(d, ws), ws, n, r, k)
    ensures 0 <= j <= k && ArchiveHistory.Log(d, ws)[j].done && ArchiveLatest.SameMinute(ws[j], ws[k])
    ensures Lifetimes.After(u, w, x)
            == Finished(Resort(w, x, Some(ws[j].payload)), Some(w.tasks[x.e.t].phase.f), None)
    ensures ArchiveLatest.StrictlyIncreasing(ws) ==>
              (ws[j].payload == ws[k].payload
               <==> !exists f, i :: ArchiveLatest.Overtakes(ArchiveHistory.Log(d, ws), ws, f, i, k))
  {
    j := ArchiveLatest.ReadsSameMinute(d, ws, n, r, k, x.e.fb.archived);
    if ArchiveLatest.StrictlyIncreasing(ws) {
      ArchiveLatest.ReadsLatestIffNotOvertaken(d, ws, n, r, k, x.e.fb.archived);
    }
    ServesResort(u, w, x);
  }

  /**
   For a resource that has no snapshots, once its stale copy is gone: the last reference
   document is served, else the first event, a null or empty one not counting, else the
   error envelope.
   */
  lemma ArchiveServesRecord(u: Setup, w: World, x: Tick, d: Tables.Deps, ws: seq<Archive.WriteArgs>, n: nat,
                            r: Tables.Resource)
    requires CacheInv(u, w) && FallsBack(u, w, x) && Tables.Faithful(d) && ArchiveRuns.Monotone(ws) && n <= |ws|
    requires Archive.Reads(d, ArchiveRuns.After(d, ws, n), r, x.e.fb.archived)
    requires ArchiveFallback.NeverSnapshot(d, ws, n, r)
    requires StaleCopy(u.cfg, w.store, KeyOf(w, x.e), x.at) == None
    ensures Served(u, w, x).cache == ARCHIVE_FALLBACK ==>
              && Served(u, w, x).status == 200
              && (|| ArchiveFallback.ReferenceLeaves(d, ws, n, r, Served(u, w, x).body)
                  || (&& ArchiveFallback.EventLeaves(d, ws, n, r, Served(u, w, x).body)
                      && forall b :: !ArchiveFallback.ReferenceLeaves(d, ws, n, r, b)))
    ensures Served(u, w, x).cache != ARCHIVE_FALLBACK ==>
              && Served(u, w, x) == Reply(w.tasks[x.e.t].phase.f.resp.status, x.e.fb.envelope, ERROR, None)
              && (forall b :: ArchiveFallback.ReferenceLeaves(d, ws, n, r, b) ==> b == [])
              && (forall b :: ArchiveFallback.EventLeaves(d, ws, n, r, b) ==>
                    b == [] || exists c :: ArchiveFallback.ReferenceLeaves(d, ws, n, r, c))
  {
    ArchiveFallback.ReadsRecord(d, ws, n, r, x.e.fb.archived);
    ServesResort(u, w, x);
  }
}
