/**
 Market-order deltas (app/archive.py:478-539): a snapshot is split into order versions,
 shared between snapshots, and entries that say which version of which order it had.
 */
module Deltas {
  import opened Common
  import opened Tables

  const BATCH_SIZE := 1000

  type Versions = map<VersionKey, Version>
  type Entries = map<EntryKey, Entry>

  /** The orders that are archived: objects with an order id. */
  function Keyed(orders: seq<OrderDoc>): (keyed: seq<OrderDoc>)
    ensures forall i :: 0 <= i < |keyed| ==> keyed[i].Order?
  {
    if orders == [] then []
    else (if orders[0].Order? then [orders[0]] else []) + Keyed(orders[1..])
  }

  predicate HasBadId(orders: seq<OrderDoc>) {
    exists i :: 0 <= i < |orders| && orders[i].BadId?
  }

  function VersionKeyOf(d: Deps, datasource: Field, o: OrderDoc): VersionKey
    requires o.Order?
  {
    VersionKey(datasource, o.id, d.shaText(o.text))
  }

  // -------------------------------------------------- the statements, row by row

  predicate AllOrders(rows: seq<OrderDoc>) {
    forall i :: 0 <= i < |rows| ==> rows[i].Order?
  }

  function Upsert(vs: Versions, k: VersionKey, payload: string, at: Moment): Versions {
    vs[k := if k in vs then vs[k].(lastSeen := at) else Version(payload, at, at)]
  }

  function UpsertAll(d: Deps, vs: Versions, datasource: Field, rows: seq<OrderDoc>, at: Moment): Versions
    requires AllOrders(rows)
    decreases |rows|
  {
    if rows == [] then vs
    else UpsertAll(d, Upsert(vs, VersionKeyOf(d, datasource, rows[0]), rows[0].text, at), datasource, rows[1..], at)
  }

  function InsertAll(d: Deps, es: Entries, snapshot: int, region: int, rows: seq<OrderDoc>): Entries
    requires AllOrders(rows)
    decreases |rows|
  {
    if rows == [] then es
    else
      var o := rows[0];
      InsertAll(d, InsertIfAbsent(es, EntryKey(snapshot, o.id), Entry(d.shaText(o.text), region)),
                snapshot, region, rows[1..])
  }

  lemma {:induction false} UpsertAppends(d: Deps, vs: Versions, datasource: Field,
                                         xs: seq<OrderDoc>, ys: seq<OrderDoc>, at: Moment)
    requires AllOrders(xs) && AllOrders(ys)
    ensures AllOrders(xs + ys)
    ensures UpsertAll(d, vs, datasource, xs + ys, at)
            == UpsertAll(d, UpsertAll(d, vs, datasource, xs, at), datasource, ys, at)
    decreases |xs|
  {
    if xs == [] {
      assert xs + ys == ys;
    } else {
      assert (xs + ys)[1..] == xs[1..] + ys;
      UpsertAppends(d, Upsert(vs, VersionKeyOf(d, datasource, xs[0]), xs[0].text, at), datasource, xs[1..], ys, at);
    }
  }

  lemma {:induction false} InsertAppends(d: Deps, es: Entries, snapshot: int, region: int,
                                         xs: seq<OrderDoc>, ys: seq<OrderDoc>)
    requires AllOrders(xs) && AllOrders(ys)
    ensures AllOrders(xs + ys)
    ensures InsertAll(d, es, snapshot, region, xs + ys)
            == InsertAll(d, InsertAll(d, es, snapshot, region, xs), snapshot, region, ys)
    decreases |xs|
  {
    if xs == [] {
      assert xs + ys == ys;
    } else {
      assert (xs + ys)[1..] == xs[1..] + ys;
      var o := xs[0];
      InsertAppends(d, InsertIfAbsent(es, EntryKey(snapshot, o.id), Entry(d.shaText(o.text), region)),
                    snapshot, region, xs[1..], ys);
    }
  }

  /** ON CONFLICT DO UPDATE cannot touch one row twice: two equal orders in one batch. */
  predicate Clash(d: Deps, rows: seq<OrderDoc>, i: int, j: int)
    requires AllOrders(rows) && 0 <= i < |rows| && 0 <= j < |rows|
  {
    i / BATCH_SIZE == j / BATCH_SIZE && rows[i].id == rows[j].id && d.shaText(rows[i].text) == d.shaText(rows[j].text)
  }

  ghost predicate Clashes(d: Deps, rows: seq<OrderDoc>)
    requires AllOrders(rows)
  {
    exists i, j :: 0 <= i < j < |rows| && Clash(d, rows, i, j)
  }

  /** The tables with one snapshot's orders written, row by row. */
  function WithDeltas(d: Deps, t: Tables, snapshot: int, datasource: Field, region: int,
                      orders: seq<OrderDoc>, at: Moment): Tables {
    t.(versions := UpsertAll(d, t.versions, datasource, Keyed(orders), at),
       entries := InsertAll(d, t.entries, snapshot, region, Keyed(orders)))
  }

  // ------------------------------------------------------------------ the method

  /** A database session: the tables as its transaction sees them, and as last committed. */
  class Session {
    var db: Tables
    var committed: Tables

    constructor ()
      ensures db == committed == NoTables()
    {
      db, committed := NoTables(), NoTables();
    }

    method Commit()
      modifies this`committed
      ensures committed == db
    {
      committed := db;
    }

    method Rollback()
      modifies this`db
      ensures db == committed
    {
      db := committed;
    }

    /** Does a batch hold one version twice? */
    method RejectsBatch(d: Deps, rows: seq<OrderDoc>, lo: nat, hi: nat) returns (rejected: bool)
      requires AllOrders(rows) && lo <= hi <= |rows|
      ensures rejected <==> exists i, j :: lo <= i < j < hi && SameVersion(d, rows, i, j)
    {
      for j := lo to hi
        invariant forall i', j' :: lo <= i' < j' < j ==> !SameVersion(d, rows, i', j')
      {
        for i := lo to j
          invariant forall i' :: lo <= i' < i ==> !SameVersion(d, rows, i', j)
        {
          if SameVersion(d, rows, i, j) {
            return true;
          }
        }
      }
      rejected := false;
    }

    /** The first loop: keeps the orders with an id, gives up on an id that is no integer. */
    method CollectRows(orders: seq<OrderDoc>) returns (ok: bool, rows: seq<OrderDoc>)
      ensures ok <==> !HasBadId(orders)
      ensures ok ==> rows == Keyed(orders)
    {
      rows := [];
      for i := 0 to |orders|
        invariant rows == Keyed(orders[..i])
        invariant forall j :: 0 <= j < i ==> !orders[j].BadId?
      {
        if orders[i].BadId? {
          return false, rows;
        }
        KeyedAppends(orders[..i], [orders[i]]);
        assert orders[..i + 1] == orders[..i] + [orders[i]];
        if orders[i].Order? {
          rows := rows + [orders[i]];
        }
      }
      assert orders[..|orders|] == orders;
      ok := true;
    }

    method UpsertVersions(d: Deps, datasource: Field, rows: seq<OrderDoc>, at: Moment) returns (ok: bool)
      requires AllOrders(rows)
      modifies this`db
      ensures ok <==> !Clashes(d, rows)
      ensures ok ==> db == old(db).(versions := UpsertAll(d, old(db).versions, datasource, rows, at))
    {
      var lo := 0;
      assert rows[..0] == [];
      while lo < |rows|
        invariant 0 <= lo <= |rows| && (lo % BATCH_SIZE == 0 || lo == |rows|)
        invariant db == old(db).(versions := UpsertAll(d, old(db).versions, datasource, rows[..lo], at))
        invariant forall i, j :: 0 <= i < j < lo ==> !Clash(d, rows, i, j)
        decreases |rows| - lo
      {
        var hi := if lo + BATCH_SIZE < |rows| then lo + BATCH_SIZE else |rows|;
        var rejected := RejectsBatch(d, rows, lo, hi);
        BatchClashes(d, rows, lo, hi);
        if rejected {
          return false;
        }
        UpsertAppends(d, old(db).versions, datasource, rows[..lo], rows[lo..hi], at);
        assert rows[..lo] + rows[lo..hi] == rows[..hi];
        db := db.(versions := UpsertAll(d, db.versions, datasource, rows[lo..hi], at));
        lo := hi;
      }
      assert rows[..|rows|] == rows;
      ok := true;
    }

    method InsertEntries(d: Deps, snapshot: int, region: int, rows: seq<OrderDoc>)
      requires AllOrders(rows)
      modifies this`db
      ensures db == old(db).(entries := InsertAll(d, old(db).entries, snapshot, region, rows))
    {
      var lo := 0;
      assert rows[..0] == [];
      while lo < |rows|
        invariant 0 <= lo <= |rows|
        invariant db == old(db).(entries := InsertAll(d, old(db).entries, snapshot, region, rows[..lo]))
        decreases |rows| - lo
      {
        var hi := if lo + BATCH_SIZE < |rows| then lo + BATCH_SIZE else |rows|;
        InsertAppends(d, old(db).entries, snapshot, region, rows[..lo], rows[lo..hi]);
        assert rows[..lo] + rows[lo..hi] == rows[..hi];
        db := db.(entries := InsertAll(d, db.entries, snapshot, region, rows[lo..hi]));
        lo := hi;
      }
      assert rows[..|rows|] == rows;
    }

    /**
     Writes one snapshot's orders in batches; batch boundaries do not show in the
     tables.  It raises exactly on an order id that is no integer and on two equal
     orders in one batch.
     */
    method WriteMarketOrderDeltas(d: Deps, snapshot: int, datasource: Field, region: int,
                                  orders: seq<OrderDoc>, at: Moment)
      returns (ok: bool)
      modifies this`db
      ensures ok <==> !HasBadId(orders) && !Clashes(d, Keyed(orders))
      ensures ok ==> db == WithDeltas(d, old(db), snapshot, datasource, region, orders, at)
    {
      var rows;
      ok, rows := CollectRows(orders);
      if ok {
        ok := UpsertVersions(d, datasource, rows, at);
      }
      if ok {
        InsertEntries(d, snapshot, region, rows);
      }
    }
  }

  predicate SameVersion(d: Deps, rows: seq<OrderDoc>, i: int, j: int)
    requires AllOrders(rows) && 0 <= i < |rows| && 0 <= j < |rows|
  {
    rows[i].id == rows[j].id && d.shaText(rows[i].text) == d.shaText(rows[j].text)
  }

  /** Rows clash exactly when one of the batches they are cut into holds a version twice. */
  lemma BatchClashes(d: Deps, rows: seq<OrderDoc>, lo: nat, hi: nat)
    requires AllOrders(rows) && lo < hi <= |rows| && lo % BATCH_SIZE == 0
    requires hi == lo + BATCH_SIZE || (hi == |rows| && hi < lo + BATCH_SIZE)
    ensures hi % BATCH_SIZE == 0 || hi == |rows|
    ensures forall i, j :: lo <= i < j < hi ==> (Clash(d, rows, i, j) <==> SameVersion(d, rows, i, j))
    ensures forall i, j :: 0 <= i < lo <= j < hi ==> !Clash(d, rows, i, j)
  {
    forall i, j | lo <= i < j < hi ensures Clash(d, rows, i, j) <==> SameVersion(d, rows, i, j) {
      InBatch(lo, i);
      InBatch(lo, j);
    }
    forall i, j | 0 <= i < lo <= j < hi ensures !Clash(d, rows, i, j) {
      InBatch(lo, j);
      assert i / BATCH_SIZE < lo / BATCH_SIZE;
    }
  }

  lemma InBatch(lo: nat, i: nat)
    requires lo % BATCH_SIZE == 0 && lo <= i < lo + BATCH_SIZE
    ensures i / BATCH_SIZE == lo / BATCH_SIZE
  {
  }

  lemma {:induction false} KeyedAppends(xs: seq<OrderDoc>, ys: seq<OrderDoc>)
    ensures Keyed(xs + ys) == Keyed(xs) + Keyed(ys)
    decreases |xs|
  {
    if xs == [] {
      assert xs + ys == ys;
    } else {
      assert (xs + ys)[1..] == xs[1..] + ys;
      KeyedAppends(xs[1..], ys);
    }
  }

  /** Every order with an id is kept, as often as it is there, and nothing else. */
  lemma {:induction false} KeyedKeeps(orders: seq<OrderDoc>, o: OrderDoc)
    ensures multiset(Keyed(orders))[o] == if o.Order? then multiset(orders)[o] else 0
    decreases |orders|
  {
    if orders != [] {
      KeyedKeeps(orders[1..], o);
      assert orders == [orders[0]] + orders[1..];
    }
  }

  // ------------------------------------------------------------ reading back

  /** Joining the entries of a snapshot with the versions: its order with id `id`, if any. */
  function JoinAt(vs: Versions, es: Entries, datasource: Field, snapshot: int, id: int): Option<string> {
    var e := EntryKey(snapshot, id);
    if e in es && VersionKey(datasource, id, es[e].hash) in vs
    then Some(vs[VersionKey(datasource, id, es[e].hash)].payload)
    else None
  }

  /** The first order with id `id`. */
  function FirstText(rows: seq<OrderDoc>, id: int): Option<string> {
    if rows == [] then None
    else if rows[0].Order? && rows[0].id == id then Some(rows[0].text)
    else FirstText(rows[1..], id)
  }

  /** One row per distinct content, under its own hash, first seen no later than last. */
  ghost predicate VersionsSound(d: Deps, vs: Versions, now: Moment) {
    forall k :: k in vs ==>
      k.hash == d.shaText(vs[k].payload) && vs[k].firstSeen <= vs[k].lastSeen <= now
  }

  /** Nothing is forgotten: rows stay, with their contents and first sighting. */
  ghost predicate Grows(vs: Versions, es: Entries, vs': Versions, es': Entries) {
    && (forall k :: k in vs ==> k in vs' && vs'[k].payload == vs[k].payload && vs'[k].firstSeen == vs[k].firstSeen)
    && (forall e :: e in es ==> e in es' && es'[e] == es[e])
  }

  ghost predicate Has(vs: Versions, k: VersionKey, payload: string, at: Moment) {
    k in vs && vs[k].payload == payload && vs[k].lastSeen == at
  }

  lemma UpsertSound(d: Deps, vs: Versions, k: VersionKey, payload: string, now: Moment, at: Moment)
    requires Faithful(d) && VersionsSound(d, vs, now) && now <= at && k.hash == d.shaText(payload)
    ensures VersionsSound(d, Upsert(vs, k, payload, at), at)
    ensures Grows(vs, map[], Upsert(vs, k, payload, at), map[])
    ensures Has(Upsert(vs, k, payload, at), k, payload, at)
  {
  }

  lemma {:induction false} UpsertAllSound(d: Deps, vs: Versions, datasource: Field, rows: seq<OrderDoc>,
                                          now: Moment, at: Moment)
    requires Faithful(d) && AllOrders(rows) && VersionsSound(d, vs, now) && now <= at
    ensures var vs' := UpsertAll(d, vs, datasource, rows, at);
            && VersionsSound(d, vs', at)
            && Grows(vs, map[], vs', map[])
            && (forall i :: 0 <= i < |rows| ==> Has(vs', VersionKeyOf(d, datasource, rows[i]), rows[i].text, at))
    decreases |rows|
  {
    if rows != [] {
      var k := VersionKeyOf(d, datasource, rows[0]);
      var next := Upsert(vs, k, rows[0].text, at);
      UpsertSound(d, vs, k, rows[0].text, now, at);
      UpsertAllSound(d, next, datasource, rows[1..], at, at);
      UpsertLastSeen(d, next, datasource, rows[1..], at, k);
      var vs' := UpsertAll(d, vs, datasource, rows, at);
      forall i | 0 <= i < |rows| ensures Has(vs', VersionKeyOf(d, datasource, rows[i]), rows[i].text, at) {
        if i > 0 { assert rows[i] == rows[1..][i - 1]; }
      }
    }
  }

  lemma {:induction false} UpsertLastSeen(d: Deps, vs: Versions, datasource: Field, rows: seq<OrderDoc>,
                                          at: Moment, k: VersionKey)
    requires AllOrders(rows) && k in vs && vs[k].lastSeen == at
    ensures var vs' := UpsertAll(d, vs, datasource, rows, at); k in vs' && vs'[k].lastSeen == at
    decreases |rows|
  {
    if rows != [] {
      UpsertLastSeen(d, Upsert(vs, VersionKeyOf(d, datasource, rows[0]), rows[0].text, at),
                     datasource, rows[1..], at, k);
    }
  }

  /** A write adds the versions of its orders and no others. */
  lemma {:induction false} UpsertAllKeys(d: Deps, vs: Versions, datasource: Field,
                                         rows: seq<OrderDoc>, at: Moment, k: VersionKey)
    requires AllOrders(rows)
    ensures k in UpsertAll(d, vs, datasource, rows, at) <==> k in vs || Mentions(d, datasource, rows, k)
    decreases |rows|
  {
    if rows != [] {
      var first := VersionKeyOf(d, datasource, rows[0]);
      UpsertAllKeys(d, Upsert(vs, first, rows[0].text, at), datasource, rows[1..], at, k);
      if Mentions(d, datasource, rows[1..], k) {
        var i :| 0 <= i < |rows[1..]| && VersionKeyOf(d, datasource, rows[1..][i]) == k;
        assert VersionKeyOf(d, datasource, rows[i + 1]) == k;
      }
      if k != first && Mentions(d, datasource, rows, k) {
        var i :| 0 <= i < |rows| && VersionKeyOf(d, datasource, rows[i]) == k;
        assert VersionKeyOf(d, datasource, rows[1..][i - 1]) == k;
      }
    }
  }

  ghost predicate Mentions(d: Deps, datasource: Field, rows: seq<OrderDoc>, k: VersionKey)
    requires AllOrders(rows)
  {
    exists i :: 0 <= i < |rows| && VersionKeyOf(d, datasource, rows[i]) == k
  }

  /** A version that is written again is seen again; a new one is seen for the first and last time. */
  lemma {:induction false} UpsertAllReads(d: Deps, vs: Versions, datasource: Field,
                                          rows: seq<OrderDoc>, at: Moment, k: VersionKey)
    requires AllOrders(rows)
    ensures var vs' := UpsertAll(d, vs, datasource, rows, at);
            if Mentions(d, datasource, rows, k) then
              && k in vs' && vs'[k].lastSeen == at
              && vs'[k].firstSeen == if k in vs then vs[k].firstSeen else at
            else (k in vs' <==> k in vs) && (k in vs ==> vs'[k] == vs[k])
    decreases |rows|
  {
    if rows != [] {
      var first := VersionKeyOf(d, datasource, rows[0]);
      var next := Upsert(vs, first, rows[0].text, at);
      UpsertAllReads(d, next, datasource, rows[1..], at, k);
      if Mentions(d, datasource, rows[1..], k) {
        var i :| 0 <= i < |rows[1..]| && VersionKeyOf(d, datasource, rows[1..][i]) == k;
        assert VersionKeyOf(d, datasource, rows[i + 1]) == k;
      } else {
        assert forall i :: 0 < i < |rows| ==> rows[i] == rows[1..][i - 1];
      }
    }
  }

  /** The entry of an order is the one it had, or else that of the first order with its id. */
  lemma {:induction false} InsertAllReads(d: Deps, es: Entries, snapshot: int, region: int,
                                          rows: seq<OrderDoc>, e: EntryKey)
    requires AllOrders(rows)
    ensures var es' := InsertAll(d, es, snapshot, region, rows);
            if e in es then e in es' && es'[e] == es[e]
            else if e.snapshot == snapshot && FirstText(rows, e.orderId).Some? then
              e in es' && es'[e] == Entry(d.shaText(FirstText(rows, e.orderId).value), region)
            else e !in es'
    decreases |rows|
  {
    if rows != [] {
      var o := rows[0];
      InsertAllReads(d, InsertIfAbsent(es, EntryKey(snapshot, o.id), Entry(d.shaText(o.text), region)),
                     snapshot, region, rows[1..], e);
    }
  }

  lemma {:induction false} FirstTextRow(rows: seq<OrderDoc>, id: int) returns (i: nat)
    requires FirstText(rows, id).Some?
    ensures i < |rows| && rows[i].Order? && rows[i].id == id && rows[i].text == FirstText(rows, id).value
    decreases |rows|
  {
    if rows[0].Order? && rows[0].id == id {
      i := 0;
    } else {
      var j := FirstTextRow(rows[1..], id);
      i := j + 1;
    }
  }

  /**
   Lossless: after a write the join gives back the snapshot, order by order, provided
   the entries it already had, if any, come from an earlier write of the same orders.
   */
  lemma WriteIsLossless(d: Deps, vs: Versions, es: Entries, datasource: Field, snapshot: int, region: int,
                        rows: seq<OrderDoc>, now: Moment, at: Moment, id: int)
    requires Faithful(d) && AllOrders(rows) && VersionsSound(d, vs, now) && now <= at
    requires EntryKey(snapshot, id) in es ==>
               FirstText(rows, id).Some? && JoinAt(vs, es, datasource, snapshot, id) == FirstText(rows, id)
    ensures JoinAt(UpsertAll(d, vs, datasource, rows, at), InsertAll(d, es, snapshot, region, rows),
                   datasource, snapshot, id) == FirstText(rows, id)
  {
    UpsertAllSound(d, vs, datasource, rows, now, at);
    InsertAllReads(d, es, snapshot, region, rows, EntryKey(snapshot, id));
    if FirstText(rows, id).Some? {
      var i := FirstTextRow(rows, id);
      assert rows[i].text == FirstText(rows, id).value;
    }
  }

  /** A write keeps every row, and with it what any snapshot joins to. */
  lemma WriteGrows(d: Deps, vs: Versions, es: Entries, datasource: Field, snapshot: int, region: int,
                   rows: seq<OrderDoc>, now: Moment, at: Moment)
    requires Faithful(d) && AllOrders(rows) && VersionsSound(d, vs, now) && now <= at
    ensures Grows(vs, es, UpsertAll(d, vs, datasource, rows, at), InsertAll(d, es, snapshot, region, rows))
    ensures VersionsSound(d, UpsertAll(d, vs, datasource, rows, at), at)
  {
    UpsertAllSound(d, vs, datasource, rows, now, at);
    forall e | e in es ensures e in InsertAll(d, es, snapshot, region, rows)
      && InsertAll(d, es, snapshot, region, rows)[e] == es[e]
    {
      InsertAllReads(d, es, snapshot, region, rows, e);
    }
  }

  lemma {:induction false} FirstTextKeyed(orders: seq<OrderDoc>, id: int)
    ensures FirstText(Keyed(orders), id) == FirstText(orders, id)
    decreases |orders|
  {
    if orders != [] {
      FirstTextKeyed(orders[1..], id);
      if orders[0].Order? {
        assert Keyed(orders)[1..] == Keyed(orders[1..]);
      } else {
        assert Keyed(orders) == Keyed(orders[1..]);
      }
    }
  }

  /** Order i is the first of its id. */
  predicate FirstOfId(orders: seq<OrderDoc>, i: int, id: int) {
    && 0 <= i < |orders| && orders[i].Order? && orders[i].id == id
    && forall j :: 0 <= j < i && orders[j].Order? ==> orders[j].id != id
  }

  /** What is recovered for an id is its first order in the snapshot, whatever else the snapshot lists. */
  lemma {:induction false} FirstTextIsFirst(orders: seq<OrderDoc>, id: int, i: int)
    requires FirstOfId(orders, i, id)
    ensures FirstText(orders, id) == Some(orders[i].text)
    decreases |orders|
  {
    if i > 0 {
      assert orders[0].Order? ==> orders[0].id != id;
      assert forall j :: 0 <= j < |orders[1..]| ==> orders[1..][j] == orders[j + 1];
      FirstTextIsFirst(orders[1..], id, i - 1);
    }
  }

  lemma {:induction false} FirstTextIsNone(orders: seq<OrderDoc>, id: int)
    requires forall i :: 0 <= i < |orders| && orders[i].Order? ==> orders[i].id != id
    ensures FirstText(orders, id) == None
    decreases |orders|
  {
    if orders != [] {
      assert forall j :: 0 <= j < |orders[1..]| ==> orders[1..][j] == orders[j + 1];
      FirstTextIsNone(orders[1..], id);
    }
  }

  /** Every order of a snapshot is recovered exactly when no order id occurs with two contents. */
  lemma {:induction false} RecoversAllIffUnambiguous(rows: seq<OrderDoc>)
    requires AllOrders(rows)
    ensures (forall i :: 0 <= i < |rows| ==> FirstText(rows, rows[i].id) == Some(rows[i].text))
            <==> (forall i, j :: 0 <= i < j < |rows| && rows[i].id == rows[j].id ==> rows[i].text == rows[j].text)
  {
    forall i | 0 <= i < |rows| ensures FirstText(rows, rows[i].id).Some? {
      FirstTextFinds(rows, i);
    }
    if forall i, j :: 0 <= i < j < |rows| && rows[i].id == rows[j].id ==> rows[i].text == rows[j].text {
      forall i | 0 <= i < |rows| ensures FirstText(rows, rows[i].id) == Some(rows[i].text) {
        var j := FirstTextRow(rows, rows[i].id);
        assert rows[j].id == rows[i].id;
      }
    }
  }

  lemma {:induction false} FirstTextFinds(rows: seq<OrderDoc>, i: nat)
    requires i < |rows| && rows[i].Order?
    ensures FirstText(rows, rows[i].id).Some?
    decreases |rows|
  {
    if i > 0 {
      assert rows[1..][i - 1] == rows[i];
      FirstTextFinds(rows[1..], i - 1);
    }
  }
}
