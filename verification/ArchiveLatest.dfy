/**
 Which payload the stale fallback finds (app/archive.py:254-273, 305-314): one of the
 minute of the latest write, and the latest write itself unless, within that minute,
 the content went back to what it was before.
 */
module ArchiveLatest {
  import opened Common
  import opened Tables
  import opened Archive
  import opened ArchiveInv
  import opened ArchiveRuns
  import opened ArchiveHistory

  lemma BucketMonotone(t: Moment, u: Moment)
    requires t <= u
    ensures Bucket(t) <= Bucket(u)
  {
  }

  ghost predicate SameMinute(w: WriteArgs, v: WriteArgs) {
    w.resource == v.resource && Bucket(w.at) == Bucket(v.at)
  }

  /** Two writes share their key exactly when they are of one resource, minute and content. */
  lemma SameKey(d: Deps, w: WriteArgs, v: WriteArgs)
    requires Faithful(d)
    ensures KeyOf(d, w) == KeyOf(d, v) <==> SameMinute(w, v) && w.payload == v.payload
  {
    if KeyOf(d, w) == KeyOf(d, v) {
      IdempotencyKeyInjective(d, w.resource, v.resource, w.at, v.at, d.sha(w.payload), d.sha(v.payload));
    }
  }

  /** The latest committed write of a resource among the first n. */
  ghost predicate IsLatest(cs: seq<Commit>, ws: seq<WriteArgs>, n: int, r: Resource, k: int)
    requires |cs| == |ws| && n <= |ws|
  {
    && 0 <= k < n && cs[k].done && ws[k].resource == r
    && forall j :: k < j < n && cs[j].done ==> ws[j].resource != r
  }

  /** The payload read back was written in the minute of the latest write, and first then. */
  lemma ReadsSameMinute(d: Deps, ws: seq<WriteArgs>, n: nat, r: Resource, k: int, payload: Option<Bytes>)
    returns (j: int)
    requires Faithful(d) && Monotone(ws) && n <= |ws|
    requires IsLatest(Log(d, ws), ws, n, r, k) && Reads(d, After(d, ws, n), r, payload)
    ensures 0 <= j <= k && IsFirst(Log(d, ws), j)
    ensures SameMinute(ws[j], ws[k]) && payload == Some(ws[j].payload)
    ensures forall i :: i in After(d, ws, n).snapshots && After(d, ws, n).snapshots[i].resource == r ==>
              After(d, ws, n).snapshots[i].fetchedAt <= ws[j].at
  {
    var t := After(d, ws, n);
    assert Log(d, ws)[k] == CommitOf(d, ws, k);
    CommittedIsReadable(d, ws, k, n);
    var id :| Latest(t, r, id)
              && payload == if PayloadOf(d, t, id).Some? then PayloadOf(d, t, id) else Fallback(d, t, r);
    j := RowHasOrigin(d, ws, n, id);
    assert Log(d, ws)[j] == CommitOf(d, ws, j);
    BucketMonotone(t.snapshots[RowId(d, t, ws[k])].fetchedAt, ws[j].at);
    BucketMonotone(ws[j].at, ws[k].at);
  }

  ghost predicate StrictlyIncreasing(ws: seq<WriteArgs>) {
    forall i, j :: 0 <= i < j < |ws| ==> ws[i].at < ws[j].at
  }

  /** No earlier committed write of that minute had this content. */
  ghost predicate NewInMinute(cs: seq<Commit>, ws: seq<WriteArgs>, j: int)
    requires |cs| == |ws| && 0 <= j < |ws|
  {
    forall i :: 0 <= i < j && cs[i].done && SameMinute(ws[i], ws[j]) ==> ws[i].payload != ws[j].payload
  }

  /** A, then B, new in that minute, then A again: j is where B came, after an A at f. */
  ghost predicate Overtakes(cs: seq<Commit>, ws: seq<WriteArgs>, f: int, j: int, k: int)
    requires |cs| == |ws| && 0 <= k < |ws|
  {
    && 0 <= f < j < k && cs[f].done && cs[j].done
    && SameMinute(ws[f], ws[k]) && ws[f].payload == ws[k].payload
    && SameMinute(ws[j], ws[k]) && ws[j].payload != ws[k].payload && NewInMinute(cs, ws, j)
  }

  lemma FirstIffNew(d: Deps, ws: seq<WriteArgs>, cs: seq<Commit>, j: int)
    requires Faithful(d) && Logged(d, ws, cs) && 0 <= j < |ws| && cs[j].done
    ensures IsFirst(cs, j) <==> NewInMinute(cs, ws, j)
  {
    assert cs[j] == CommitOf(d, ws, j);
    forall i | 0 <= i < j
      ensures cs[i].key == cs[j].key <==> SameMinute(ws[i], ws[j]) && ws[i].payload == ws[j].payload {
      assert cs[i] == CommitOf(d, ws, i);
      SameKey(d, ws[i], ws[j]);
    }
  }

  /** A first write's row carries its moment. */
  lemma FirstHasRow(d: Deps, ws: seq<WriteArgs>, n: nat, j: int)
    requires Faithful(d) && Monotone(ws) && 0 <= j < n <= |ws| && IsFirst(Log(d, ws), j)
    ensures var t := After(d, ws, n); var id := RowId(d, t, ws[j]);
            id in t.snapshots && t.snapshots[id].resource == ws[j].resource && t.snapshots[id].fetchedAt == ws[j].at
  {
    var t := After(d, ws, n);
    assert Log(d, ws)[j] == CommitOf(d, ws, j);
    RunKeepsHistory(d, ws, Log(d, ws), n, t);
    CommittedIsReadable(d, ws, j, n);
  }

  /** The first committed write with the resource, minute and content of write k. */
  lemma FirstLike(d: Deps, ws: seq<WriteArgs>, cs: seq<Commit>, k: int) returns (f: int)
    requires Faithful(d) && Logged(d, ws, cs) && 0 <= k < |ws| && cs[k].done
    ensures 0 <= f <= k && IsFirst(cs, f) && SameMinute(ws[f], ws[k]) && ws[f].payload == ws[k].payload
  {
    f := k;
    assert cs[k] == CommitOf(d, ws, k);
    for i := 0 to k
      invariant forall i' :: 0 <= i' < i && cs[i'].done ==> cs[i'].key != cs[k].key
    {
      if cs[i].done && cs[i].key == cs[k].key {
        assert cs[i] == CommitOf(d, ws, i);
        SameKey(d, ws[i], ws[k]);
        return i;
      }
    }
  }

  /** Write j0 made the newest row of the resource of write k, in the same minute. */
  ghost predicate MadeNewest(ws: seq<WriteArgs>, cs: seq<Commit>, rows: Rows, j0: int, k: int)
    requires |cs| == |ws| && 0 <= k < |ws|
  {
    && 0 <= j0 <= k && cs[j0].done && SameMinute(ws[j0], ws[k]) && NewInMinute(cs, ws, j0)
    && forall i :: i in rows && rows[i].resource == ws[k].resource ==> rows[i].fetchedAt <= ws[j0].at
  }

  /** If that row has the content of write k, nothing overtook it. */
  lemma NewestNotOvertaken(d: Deps, ws: seq<WriteArgs>, n: nat, k: int, j0: int, f: int, j: int)
    requires Faithful(d) && Monotone(ws) && StrictlyIncreasing(ws) && 0 <= k < n <= |ws|
    requires MadeNewest(ws, Log(d, ws), After(d, ws, n).snapshots, j0, k) && ws[j0].payload == ws[k].payload
    ensures !Overtakes(Log(d, ws), ws, f, j, k)
  {
    if Overtakes(Log(d, ws), ws, f, j, k) {
      FirstIffNew(d, ws, Log(d, ws), j);
      FirstHasRow(d, ws, n, j);
      assert false;
    }
  }

  /** If it has another content, that content overtook. */
  lemma NewestOvertook(d: Deps, ws: seq<WriteArgs>, n: nat, k: int, j0: int) returns (f: int)
    requires Faithful(d) && Monotone(ws) && StrictlyIncreasing(ws) && 0 <= k < n <= |ws| && Log(d, ws)[k].done
    requires MadeNewest(ws, Log(d, ws), After(d, ws, n).snapshots, j0, k) && ws[j0].payload != ws[k].payload
    ensures Overtakes(Log(d, ws), ws, f, j0, k)
  {
    f := FirstLike(d, ws, Log(d, ws), k);
    FirstHasRow(d, ws, n, f);
    CameBefore(ws, Log(d, ws), After(d, ws, n).snapshots, f, j0, k, RowId(d, After(d, ws, n), ws[f]));
  }

  lemma CameBefore(ws: seq<WriteArgs>, cs: seq<Commit>, rows: Rows, f: int, j0: int, k: int, id: int)
    requires |cs| == |ws| && 0 <= f <= k < |ws| && StrictlyIncreasing(ws) && cs[f].done
    requires MadeNewest(ws, cs, rows, j0, k) && ws[j0].payload != ws[k].payload
    requires SameMinute(ws[f], ws[k]) && ws[f].payload == ws[k].payload
    requires id in rows && rows[id].resource == ws[f].resource && rows[id].fetchedAt == ws[f].at
    ensures Overtakes(cs, ws, f, j0, k)
  {
    assert ws[f].at <= ws[j0].at;
  }

  /** Reading gives the latest write back exactly when no content overtook it within its minute. */
  lemma ReadsLatestIffNotOvertaken(d: Deps, ws: seq<WriteArgs>, n: nat, r: Resource, k: int, payload: Option<Bytes>)
    requires Faithful(d) && Monotone(ws) && StrictlyIncreasing(ws) && n <= |ws|
    requires IsLatest(Log(d, ws), ws, n, r, k) && Reads(d, After(d, ws, n), r, payload)
    ensures payload == Some(ws[k].payload) <==> !exists f, j :: Overtakes(Log(d, ws), ws, f, j, k)
  {
    var j0 := ReadsSameMinute(d, ws, n, r, k, payload);
    FirstIffNew(d, ws, Log(d, ws), j0);
    assert MadeNewest(ws, Log(d, ws), After(d, ws, n).snapshots, j0, k);
    if ws[j0].payload == ws[k].payload {
      forall f, j ensures !Overtakes(Log(d, ws), ws, f, j, k) {
        NewestNotOvertaken(d, ws, n, k, j0, f, j);
      }
    } else {
      var f := NewestOvertook(d, ws, n, k, j0);
    }
  }

  /** A first write later than all others of its resource is what is read. */
  lemma NewestFirstIsRead(d: Deps, ws: seq<WriteArgs>, n: nat, j: int)
    requires Faithful(d) && Monotone(ws) && n <= |ws| && 0 <= j < n && IsFirst(Log(d, ws), j)
    requires forall k :: 0 <= k < n && IsFirst(Log(d, ws), k) && ws[k].resource == ws[j].resource ==>
               ws[k].at <= ws[j].at
    ensures Reads(d, After(d, ws, n), ws[j].resource, Some(ws[j].payload))
  {
    var t := After(d, ws, n);
    var id := RowId(d, t, ws[j]);
    assert Log(d, ws)[j] == CommitOf(d, ws, j);
    CommittedIsReadable(d, ws, j, n);
    FirstHasRow(d, ws, n, j);
    forall i | i in t.snapshots && t.snapshots[i].resource == ws[j].resource
      ensures t.snapshots[i].fetchedAt <= ws[j].at {
      var k := RowHasOrigin(d, ws, n, i);
    }
    assert Latest(t, ws[j].resource, id);
  }

  lemma BackAndForthOvertakes(d: Deps, ws: seq<WriteArgs>, cs: seq<Commit>)
    requires Faithful(d) && |ws| == 3 && Logged(d, ws, cs) && forall k :: 0 <= k < 3 ==> cs[k].done
    requires SameMinute(ws[0], ws[2]) && SameMinute(ws[1], ws[2])
    requires ws[0].payload == ws[2].payload != ws[1].payload
    ensures IsFirst(cs, 1) && !IsFirst(cs, 2) && Overtakes(cs, ws, 0, 1, 2)
  {
    FirstIffNew(d, ws, cs, 1);
    FirstIffNew(d, ws, cs, 2);
  }

  /** Three committed writes of one minute: content A, then B, then A.  What is read is B. */
  lemma BackAndForthReads(d: Deps, ws: seq<WriteArgs>)
    requires Faithful(d) && StrictlyIncreasing(ws) && |ws| == 3 && forall k :: 0 <= k < 3 ==> Log(d, ws)[k].done
    requires SameMinute(ws[0], ws[2]) && SameMinute(ws[1], ws[2])
    requires ws[0].payload == ws[2].payload != ws[1].payload
    ensures Reads(d, After(d, ws, 3), ws[2].resource, Some(ws[1].payload))
    ensures forall payload :: Reads(d, After(d, ws, 3), ws[2].resource, payload) ==> payload == Some(ws[1].payload)
  {
    BackAndForthOvertakes(d, ws, Log(d, ws));
    NewestFirstIsRead(d, ws, 3, 1);
    forall payload | Reads(d, After(d, ws, 3), ws[2].resource, payload) ensures payload == Some(ws[1].payload) {
      ReadsLatestIffNotOvertaken(d, ws, 3, ws[2].resource, 2, payload);
      var j := ReadsSameMinute(d, ws, 3, ws[2].resource, 2, payload);
    }
  }
}
