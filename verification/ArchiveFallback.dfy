/**
 What the stale fallback reads of a resource without snapshots (app/archive.py:275-302):
 its last reference document, else its first event, else nothing.
 */
module ArchiveFallback {
  import opened Common
  import opened Tables
  import opened Archive
  import opened ArchiveRuns
  import opened ArchiveHistory
  import opened ArchiveRecords

  /** No committed write of r among the first n is a snapshot. */
  ghost predicate NeverSnapshot(d: Deps, ws: seq<WriteArgs>, n: nat, r: Resource)
    requires n <= |ws|
  {
    forall k: nat :: k < n && Done(d, ws, k) ==> ws[k].resource != r
  }

  /** Then there is no row of it either, and only then. */
  lemma NoRowIffNeverSnapshot(d: Deps, ws: seq<WriteArgs>, n: nat, r: Resource)
    requires Faithful(d) && Monotone(ws) && n <= |ws|
    ensures NoSnapshot(After(d, ws, n), r) <==> NeverSnapshot(d, ws, n, r)
  {
    var t := After(d, ws, n);
    forall k: nat | k < n && Done(d, ws, k) && ws[k].resource == r ensures !NoSnapshot(t, r) {
      CommittedIsReadable(d, ws, k, n);
      assert t.snapshots[RowId(d, t, ws[k])].resource == r;
    }
    forall i | i in t.snapshots && t.snapshots[i].resource == r ensures !NeverSnapshot(d, ws, n, r) {
      var k := RowHasOrigin(d, ws, n, i);
      assert Done(d, ws, k) && ws[k].resource == r;
    }
  }

  /** What write k leaves to be read back: its JSON document as it is dumped, unless that is null. */
  ghost predicate Leaves(d: Deps, ws: seq<WriteArgs>, k: nat, payload: Bytes)
    requires k < |ws|
  {
    exists j :: d.parseJson(ws[k].payload) == Some(j) && j != "null" && payload == d.dumpJson(j)
  }

  /** Write k is the last of the first n that stores a reference document for r. */
  ghost predicate LastReference(d: Deps, ws: seq<WriteArgs>, n: nat, r: Resource, k: nat)
    requires n <= |ws|
  {
    && k < n && Stores(d, ws, k, REFERENCE, r)
    && forall j :: k < j < n ==> !Stores(d, ws, j, REFERENCE, r)
  }

  /** Write k is the first that stores an event for r. */
  ghost predicate FirstEvent(d: Deps, ws: seq<WriteArgs>, n: nat, r: Resource, k: nat)
    requires n <= |ws|
  {
    && k < n && Stores(d, ws, k, EVENT, r)
    && forall j :: 0 <= j < k ==> !Stores(d, ws, j, EVENT, r)
  }

  ghost predicate ReferenceLeaves(d: Deps, ws: seq<WriteArgs>, n: nat, r: Resource, payload: Bytes)
    requires n <= |ws|
  {
    exists k: nat :: LastReference(d, ws, n, r, k) && Leaves(d, ws, k, payload)
  }

  ghost predicate EventLeaves(d: Deps, ws: seq<WriteArgs>, n: nat, r: Resource, payload: Bytes)
    requires n <= |ws|
  {
    exists k: nat :: FirstEvent(d, ws, n, r, k) && Leaves(d, ws, k, payload)
  }

  lemma ReferenceRowLeaves(d: Deps, ws: seq<WriteArgs>, n: nat, r: Resource, payload: Bytes)
    requires n <= |ws|
    ensures ReferenceLeaves(d, ws, n, r, payload) <==>
              var rows := After(d, ws, n).references;
              r in rows && rows[r].payload != "null" && payload == d.dumpJson(rows[r].payload)
  {
    var rows, last := After(d, ws, n).references, LastStore(d, ws, n, REFERENCE, r);
    ReferenceIsLatest(d, ws, n, r);
    if last.Some? {
      assert LastReference(d, ws, n, r, last.value);
      assert forall k: nat :: LastReference(d, ws, n, r, k) ==> k == last.value;
      assert Leaves(d, ws, last.value, payload)
             <==> rows[r].payload != "null" && payload == d.dumpJson(rows[r].payload);
    }
  }

  lemma EventRowLeaves(d: Deps, ws: seq<WriteArgs>, n: nat, r: Resource, payload: Bytes)
    requires n <= |ws|
    ensures EventLeaves(d, ws, n, r, payload) <==>
              var rows := After(d, ws, n).events;
              r in rows && rows[r].payload != "null" && payload == d.dumpJson(rows[r].payload)
  {
    var rows, first := After(d, ws, n).events, FirstStore(d, ws, n, 0, EVENT, r);
    EventIsFirst(d, ws, n, r);
    if first < n {
      assert FirstEvent(d, ws, n, r, first);
      assert forall k: nat :: FirstEvent(d, ws, n, r, k) ==> k == first;
      assert Leaves(d, ws, first, payload)
             <==> rows[r].payload != "null" && payload == d.dumpJson(rows[r].payload);
    }
  }

  /**
   Reading a resource that has no snapshots gives the last reference document unless
   that is null, else the first event unless that is null, else nothing.
   */
  lemma ReadsRecord(d: Deps, ws: seq<WriteArgs>, n: nat, r: Resource, payload: Option<Bytes>)
    requires Faithful(d) && Monotone(ws) && n <= |ws| && NeverSnapshot(d, ws, n, r)
    requires Reads(d, After(d, ws, n), r, payload)
    ensures payload.Some? ==>
              || ReferenceLeaves(d, ws, n, r, payload.value)
              || (EventLeaves(d, ws, n, r, payload.value) && forall b :: !ReferenceLeaves(d, ws, n, r, b))
    ensures payload.None? ==> forall b :: !ReferenceLeaves(d, ws, n, r, b) && !EventLeaves(d, ws, n, r, b)
  {
    NoRowIffNeverSnapshot(d, ws, n, r);
    forall b ensures ReferenceLeaves(d, ws, n, r, b) <==>
                       var rows := After(d, ws, n).references;
                       r in rows && rows[r].payload != "null" && b == d.dumpJson(rows[r].payload) {
      ReferenceRowLeaves(d, ws, n, r, b);
    }
    forall b ensures EventLeaves(d, ws, n, r, b) <==>
                       var rows := After(d, ws, n).events;
                       r in rows && rows[r].payload != "null" && b == d.dumpJson(rows[r].payload) {
      EventRowLeaves(d, ws, n, r, b);
    }
  }
}
