/**
 Which market types history is fetched for (app/collector.py:164-223): those of the
 latest orders snapshot, and those of every order version ever archived for the region.

 Both are readings of the same payloads: an item's own `int(o["type_id"])`, and, for
 what was archived as an order, the integer in the stored document's type_id text.
 */
module Discovery {
  import opened Common
  import opened Tables
  import opened Deltas
  import opened Archive
  import opened ArchiveInv
  import opened ArchiveRuns
  import opened ArchiveHistory

  /** The query's rows, in any order. */
  type TypeTexts = seq<Option<string>>

  /** The type of an archived order, as the query and `int` give it. */
  function TypeOf(d: Deps, text: string): Option<int> {
    match d.typeText(text)
    case None => None
    case Some(s) => d.parseInt(s)
  }

  /** The stored text of the type of an archived order is an integer, and this one. */
  predicate Parses(d: Deps, text: string, ty: int) {
    d.typeText(text).Some? && d.parseInt(d.typeText(text).value) == Some(ty)
  }

  /** The type of an item of the latest payload. */
  function ItemTypeOf(d: Deps, o: OrderDoc): ItemType {
    match o
    case Order(_, text) => d.typed(text)
    case Unkeyed(typed) => typed
    case BadId(typed) => typed
  }

  /** What there is to iterate over in a payload; nothing if it is absent or not a list. */
  function Items(d: Deps, payload: Option<Bytes>): seq<OrderDoc> {
    if payload.Some? && d.parseOrders(payload.value).Orders? then d.parseOrders(payload.value).orders else []
  }

  // -------------------------------------------------------------- specification

  /** The entry joins, within a region and a datasource, to a version with this text. */
  predicate Joins(t: Tables, datasource: Field, region: int, e: EntryKey, text: string) {
    && e in t.entries && t.entries[e].region == region
    && var k := VersionKey(datasource, e.orderId, t.entries[e].hash);
       k in t.versions && t.versions[k].payload == text
  }

  /** The rows are the distinct results of the query. */
  ghost predicate Lists(d: Deps, t: Tables, datasource: Field, region: int, rows: TypeTexts) {
    forall x :: x in rows <==> exists e, text :: Joins(t, datasource, region, e, text) && d.typeText(text) == x
  }

  /** Some archived order of the region has this type. */
  ghost predicate Accumulated(d: Deps, t: Tables, datasource: Field, region: int, ty: int) {
    exists e, text :: Joins(t, datasource, region, e, text) && TypeOf(d, text) == Some(ty)
  }

  function FromRow(d: Deps, row: Option<string>): set<int> {
    if row.Some? && d.parseInt(row.value).Some? then {d.parseInt(row.value).value} else {}
  }

  ghost predicate InRows(d: Deps, rows: TypeTexts, n: int, x: int)
    requires n <= |rows|
  {
    exists i :: 0 <= i < n && x in FromRow(d, rows[i])
  }

  /** What accumulates, nothing when the query fails. */
  ghost predicate IsFrom(d: Deps, rows: Option<TypeTexts>, ids: set<int>) {
    forall x :: x in ids <==> rows.Some? && InRows(d, rows.value, |rows.value|, x)
  }

  /** Item i is read: nothing before it is malformed. */
  predicate Read(d: Deps, items: seq<OrderDoc>, i: int) {
    0 <= i < |items| && forall j :: 0 <= j < i ==> !ItemTypeOf(d, items[j]).Malformed?
  }

  /** An item that is read gives this type. */
  ghost predicate Given(d: Deps, items: seq<OrderDoc>, ty: int) {
    exists i :: Read(d, items, i) && ItemTypeOf(d, items[i]) == TypeId(ty)
  }

  /** An item that is read raises out of the function. */
  ghost predicate Raises(d: Deps, items: seq<OrderDoc>) {
    exists i :: Read(d, items, i) && ItemTypeOf(d, items[i]).Overflows?
  }

  /** The outcome of a discovery that read this payload from these tables. */
  ghost predicate Discovers(d: Deps, t: Tables, datasource: Field, region: int, payload: Option<Bytes>,
                            ids: Option<set<int>>) {
    if Raises(d, Items(d, payload)) then ids == None
    else ids.Some? && forall x :: x in ids.value <==>
      Given(d, Items(d, payload), x) || Accumulated(d, t, datasource, region, x)
  }

  // -------------------------------------------------------------------- methods

  /** `_accumulated_type_ids`; no rows when the query fails. */
  method AccumulatedTypeIds(d: Deps, rows: Option<TypeTexts>) returns (ids: set<int>)
    ensures IsFrom(d, rows, ids)
  {
    ids := {};
    if rows.Some? {
      for i := 0 to |rows.value|
        invariant forall x :: x in ids <==> InRows(d, rows.value, i, x)
      {
        ids := ids + FromRow(d, rows.value[i]);
      }
    }
  }

  /** The types of the latest payload, up to its first malformed item. */
  method TypeIdsOf(d: Deps, items: seq<OrderDoc>) returns (raised: bool, ids: set<int>)
    ensures raised <==> Raises(d, items)
    ensures !raised ==> forall x :: x in ids <==> Given(d, items, x)
  {
    ids := {};
    for i := 0 to |items|
      invariant forall j :: 0 <= j < i ==> !ItemTypeOf(d, items[j]).Malformed? && !ItemTypeOf(d, items[j]).Overflows?
      invariant forall x :: x in ids <==> exists j :: 0 <= j < i && ItemTypeOf(d, items[j]) == TypeId(x)
    {
      match ItemTypeOf(d, items[i]) {
        case Malformed =>
          assert forall j :: Read(d, items, j) ==> j <= i;
          return false, ids;
        case Overflows =>
          assert Read(d, items, i);
          return true, ids;
        case Untyped =>
        case TypeId(id) => ids := ids + {id};
      }
    }
    assert forall j :: Read(d, items, j) <==> 0 <= j < |items|;
    raised := false;
  }

  /** The outcome, given what the query returned, if it did. */
  ghost predicate Yields(d: Deps, t: Tables, datasource: Field, region: int, payload: Option<Bytes>,
                         rows: Option<TypeTexts>, ids: Option<set<int>>) {
    && (rows.Some? && Lists(d, t, datasource, region, rows.value) ==> Discovers(d, t, datasource, region, payload, ids))
    && (rows.None? ==>
          if Raises(d, Items(d, payload)) then ids == None
          else ids.Some? && forall x :: x in ids.value <==> Given(d, Items(d, payload), x))
  }

  /** `_discover_type_ids`; None when an overflowing type id raises out of it. */
  method DiscoverTypeIds(d: Deps, session: Session, r: Resource, region: int, rows: Option<TypeTexts>)
    returns (ids: Option<set<int>>)
    ensures exists payload ::
              Reads(d, session.db, r, payload) && Yields(d, session.db, r.datasource, region, payload, rows, ids)
  {
    var payload := GetLatestPayload(d, session, r);
    var raised, found := TypeIdsOf(d, Items(d, payload));
    if raised {
      ids := None;
      assert Yields(d, session.db, r.datasource, region, payload, rows, ids);
      return;
    }
    var accumulated := AccumulatedTypeIds(d, rows);
    if rows.Some? && Lists(d, session.db, r.datasource, region, rows.value) {
      RowsAccumulate(d, session.db, r.datasource, region, rows.value, accumulated);
    }
    ids := Some(found + accumulated);
    assert Yields(d, session.db, r.datasource, region, payload, rows, ids);
  }

  /** The rows of the query parse to exactly the accumulated types. */
  lemma RowsAccumulate(d: Deps, t: Tables, datasource: Field, region: int, rows: TypeTexts, ids: set<int>)
    requires Lists(d, t, datasource, region, rows) && IsFrom(d, Some(rows), ids)
    ensures forall x :: x in ids <==> Accumulated(d, t, datasource, region, x)
  {
    forall x ensures x in ids <==> Accumulated(d, t, datasource, region, x) {
      if x in ids {
        assert InRows(d, rows, |rows|, x);
        var i :| 0 <= i < |rows| && x in FromRow(d, rows[i]);
        assert rows[i] in rows;
      }
      if Accumulated(d, t, datasource, region, x) {
        var e, text :| Joins(t, datasource, region, e, text) && TypeOf(d, text) == Some(x);
        assert d.typeText(text) in rows;
        var i :| 0 <= i < |rows| && rows[i] == d.typeText(text);
        assert x in FromRow(d, rows[i]);
        assert InRows(d, rows, |rows|, x);
      }
    }
  }

  /** What an item of a payload says of its type, wherever it stands. */
  ghost predicate Says(d: Deps, o: OrderDoc, typed: ItemType) {
    o == Unkeyed(typed) || o == BadId(typed) || (o.Order? && d.typed(o.text) == typed)
  }

  /** A payload gives the types of its items up to the first malformed one, if it is a list; no other gives any. */
  lemma PayloadGives(d: Deps, payload: Option<Bytes>, ty: int)
    ensures Given(d, Items(d, payload), ty) <==>
              && payload.Some? && d.parseOrders(payload.value).Orders?
              && var orders := d.parseOrders(payload.value).orders;
                 exists i :: 0 <= i < |orders| && Says(d, orders[i], TypeId(ty))
                             && forall j :: 0 <= j < i ==> !Says(d, orders[j], Malformed)
  {
    var items := Items(d, payload);
    if Given(d, items, ty) {
      var i :| Read(d, items, i) && ItemTypeOf(d, items[i]) == TypeId(ty);
      assert Says(d, items[i], TypeId(ty));
    }
    if i :| 0 <= i < |items| && Says(d, items[i], TypeId(ty))
            && forall j :: 0 <= j < i ==> !Says(d, items[j], Malformed) {
      forall j | 0 <= j < i ensures !ItemTypeOf(d, items[j]).Malformed? {
        assert !Says(d, items[j], Malformed);
      }
      assert Read(d, items, i);
    }
  }

  // ------------------------------------------------------- what is accumulated

  /**
   Write k, committed, is of the region, its first order of this id has this text, and
   that order is known under the datasource.
   */
  ghost predicate Archives(d: Deps, ws: seq<WriteArgs>, n: int, datasource: Field,
                           region: int, k: int, id: int, text: string)
    requires n <= |ws|
  {
    && 0 <= k < n && Log(d, ws)[k].done && d.regionOf(ws[k].resource.path) == Some(region)
    && FirstText(OrdersIn(d, ws[k].payload), id) == Some(text)
    && Brought(d, ws, Log(d, ws), n, VersionKey(datasource, id, d.shaText(text)))
  }

  /** Of a snapshot of the datasource itself the first order of every id is archived. */
  lemma OwnOrdersArchived(d: Deps, ws: seq<WriteArgs>, n: int, k: int, id: int, text: string)
    requires Faithful(d) && 0 <= k < n <= |ws| && Log(d, ws)[k].done && d.regionOf(ws[k].resource.path).Some?
    requires FirstText(OrdersIn(d, ws[k].payload), id) == Some(text)
    ensures Archives(d, ws, n, ws[k].resource.datasource, d.regionOf(ws[k].resource.path).value, k, id, text)
  {
    var rows := OrdersIn(d, ws[k].payload);
    var i := FirstTextRow(rows, id);
    assert VersionKeyOf(d, ws[k].resource.datasource, rows[i])
           == VersionKey(ws[k].resource.datasource, id, d.shaText(text));
    assert Brings(d, ws, Log(d, ws), k, VersionKey(ws[k].resource.datasource, id, d.shaText(text)));
  }

  lemma ArchivedJoins(d: Deps, ws: seq<WriteArgs>, n: nat, datasource: Field,
                      region: int, k: int, id: int, text: string)
    returns (e: EntryKey)
    requires Faithful(d) && Monotone(ws) && n <= |ws| && d.parquet && d.deltas
    requires Archives(d, ws, n, datasource, region, k, id, text)
    ensures Joins(After(d, ws, n), datasource, region, e, text)
  {
    var t := After(d, ws, n);
    assert Log(d, ws)[k] == CommitOf(d, ws, k);
    e := EntryKey(RowId(d, t, ws[k]), id);
    DeltasAreLosslessForever(d, ws, k, n, id);
    CommittedIsReadable(d, ws, k, n);
    RunKeepsInv(d, ws, n, ws[n - 1].at);
    VersionsAreBrought(d, ws, Log(d, ws), n, t, VersionKey(datasource, id, d.shaText(text)));
  }

  lemma JoinedIsArchived(d: Deps, ws: seq<WriteArgs>, n: nat, datasource: Field, region: int, e: EntryKey, text: string)
    returns (k: int)
    requires Faithful(d) && Monotone(ws) && n <= |ws| && d.parquet && d.deltas
    requires Joins(After(d, ws, n), datasource, region, e, text)
    ensures Archives(d, ws, n, datasource, region, k, e.orderId, text)
  {
    var t := After(d, ws, n);
    RunKeepsInv(d, ws, n, if n == 0 then 0 else ws[n - 1].at);
    k := RowHasOrigin(d, ws, n, e.snapshot);
    assert Log(d, ws)[k] == CommitOf(d, ws, k);
    var row := t.snapshots[e.snapshot];
    assert RecoversAt(d, t.blobs, e.snapshot, row, t.versions, t.entries, e.orderId);
    assert t.versions[VersionKey(row.resource.datasource, e.orderId, t.entries[e].hash)].payload == text;
    VersionsAreBrought(d, ws, Log(d, ws), n, t, VersionKey(datasource, e.orderId, t.entries[e].hash));
  }

  /**
   What accumulates is exactly the types of the archived orders: those with an order id,
   first of it, whose type text parses.
   */
  lemma AccumulatedExactly(d: Deps, ws: seq<WriteArgs>, n: nat, datasource: Field, region: int, ty: int)
    requires Faithful(d) && Monotone(ws) && n <= |ws| && d.parquet && d.deltas
    ensures Accumulated(d, After(d, ws, n), datasource, region, ty) <==>
              exists k, id, text :: Archives(d, ws, n, datasource, region, k, id, text) && Parses(d, text, ty)
  {
    if Accumulated(d, After(d, ws, n), datasource, region, ty) {
      var e, text :| Joins(After(d, ws, n), datasource, region, e, text) && TypeOf(d, text) == Some(ty);
      var k := JoinedIsArchived(d, ws, n, datasource, region, e, text);
    }
    if k, id, text :| Archives(d, ws, n, datasource, region, k, id, text) && TypeOf(d, text) == Some(ty) {
      var e := ArchivedJoins(d, ws, n, datasource, region, k, id, text);
    }
  }
}
