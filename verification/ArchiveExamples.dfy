/**
 Concrete writes after which the archive gives back less than it was given
 (app/archive.py:254-273, 305-314, 488-527, app/collector.py:176-223).
 */
module ArchiveExamples {
  import opened Common
  import opened Tables
  import opened Deltas
  import opened Archive
  import opened ArchiveInv
  import opened ArchiveRuns
  import opened ArchiveHistory
  import opened ArchiveLatest
  import opened Discovery
  import opened Forgetting

  const R := Resource("tranquility", "/v1/markets/10/orders/", "q")
  const REGION := 10

  /** Libraries for which the payload [1] has these items, and every other payload none. */
  function Example(items: seq<OrderDoc>): Deps {
    SomeDeps().(
      parseOrders := b => if b == [1] then Orders(items) else Orders([]),
      regionOf := _ => Some(REGION),
      typed := text => if text == "a" then TypeId(33) else TypeId(34),
      typeText := text => Some(text),
      parseInt := s => if s == "a" then Some(33) else if s == "b" then Some(34) else None)
  }

  lemma ExampleFaithful(items: seq<OrderDoc>)
    ensures Faithful(Example(items))
  {
    FaithfulIsPossible();
  }

  function Snapshot1(): WriteArgs {
    WriteArgs(R, [1], TIME_SERIES, 0, true)
  }

  // ---------------------------------------------------------- orders of one id

  /** Two equal orders in one batch: nothing of the write is kept. */
  lemma EqualOrdersFail(t: Tables)
    ensures WriteSpec(Example([Order(1, "a"), Order(1, "a")]), t, Snapshot1()) == None
  {
    var d, rows := Example([Order(1, "a"), Order(1, "a")]), [Order(1, "a"), Order(1, "a")];
    assert Keyed(rows) == rows by {
      assert rows[1..] == [Order(1, "a")] && rows[1..][1..] == [];
    }
    assert Clash(d, rows, 0, 1);
  }

  const TWICE := [Order(1, "a"), Order(1, "b")]

  lemma TwiceKeyed()
    ensures Keyed(TWICE) == TWICE && !Clashes(Example(TWICE), Keyed(TWICE))
    ensures forall id :: FirstText(TWICE, id) == if id == 1 then Some("a") else None
  {
    var rest := TWICE[1..];
    assert rest == [Order(1, "b")] && rest[1..] == [];
    forall id ensures FirstText(TWICE, id) == if id == 1 then Some("a") else None {
      assert FirstText(rest, id) == if id == 1 then Some("b") else FirstText(rest[1..], id);
    }
    ExampleFaithful(TWICE);
  }

  /** One id under two contents: the write commits, and the second content is not recovered. */
  lemma SecondContentLost()
    ensures var d, ws := Example(TWICE), [Snapshot1()];
            && Done(d, ws, 0)
            && JoinAt(After(d, ws, 1).versions, After(d, ws, 1).entries, R.datasource,
                      RowId(d, After(d, ws, 1), ws[0]), 1) == Some("a")
  {
    var d, ws := Example(TWICE), [Snapshot1()];
    TwiceKeyed();
    ExampleFaithful(TWICE);
    FirstCommits(TWICE);
    DeltasAreLosslessForever(d, ws, 0, 1, 1);
  }

  /** The first write of such a payload commits. */
  lemma FirstCommits(items: seq<OrderDoc>)
    requires !HasBadId(items) && !Clashes(Example(items), Keyed(items))
    ensures Done(Example(items), [Snapshot1()], 0)
  {
    var d, w := Example(items), Snapshot1();
    assert After(d, [w], 0) == NoTables();
    assert WithParquet(d, WithRow(d, NoTables(), w), SnapshotId(d, NoTables(), w), REGION, w).Some?;
  }

  // ----------------------------------------------------------------- forgetting

  /** Three snapshots with type 34: without an order id, with a type that is no integer text, second of its id. */
  predicate Forgettable(items: seq<OrderDoc>) {
    items == [Unkeyed(TypeId(34))] || items == [Order(1, "34.0")] || items == TWICE
  }

  lemma ForgettableCommits(items: seq<OrderDoc>)
    requires Forgettable(items)
    ensures !HasBadId(items) && !Clashes(Example(items), Keyed(items))
    ensures Given(Example(items), items, 34) && !Raises(Example(items), items)
    ensures forall id :: FirstText(Keyed(items), id) != Some("b")
  {
    var d := Example(items);
    if items == TWICE {
      TwiceKeyed();
      assert Read(d, items, 1) && ItemTypeOf(d, items[1]) == TypeId(34);
    } else {
      assert items[1..] == [];
      assert |Keyed(items)| <= 1;
      assert Read(d, items, 0) && ItemTypeOf(d, items[0]) == TypeId(34);
    }
  }

  /** The types given by items, as a set. */
  lemma GivenSet(d: Deps, items: seq<OrderDoc>) returns (ids: set<int>)
    ensures forall x :: x in ids <==> Given(d, items, x)
  {
    ids := set i | 0 <= i < |items| && Read(d, items, i) && ItemTypeOf(d, items[i]).TypeId?
      :: ItemTypeOf(d, items[i]).id;
    forall x ensures x in ids <==> Given(d, items, x) {
      if Given(d, items, x) {
        var i :| Read(d, items, i) && ItemTypeOf(d, items[i]) == TypeId(x);
      }
    }
  }

  /** Its types are discovered once it is written. */
  lemma FirstDiscovered(items: seq<OrderDoc>) returns (ids: set<int>)
    requires Forgettable(items)
    ensures Result(Example(items), [Snapshot1()], 1, R, REGION, Some([1]), ids) && 34 in ids
  {
    var d, ws := Example(items), [Snapshot1()];
    ExampleFaithful(items);
    ForgettableCommits(items);
    FirstCommits(items);
    assert Log(d, ws)[0] == CommitOf(d, ws, 0);
    LastIsRead(d, ws, 0, After(d, ws, 1));
    var given := GivenSet(d, items);
    ids := given + AccumulatedIds(d, After(d, ws, 1), R.datasource, REGION);
  }

  /** Type 34 is discovered from each of these snapshots, and lost with the next one. */
  lemma TypeForgotten(items: seq<OrderDoc>)
    requires Forgettable(items)
    ensures var d, ws := Example(items), [Snapshot1()];
            && (exists ids :: Result(d, ws, 1, R, REGION, Some([1]), ids) && 34 in ids)
            && !FoundForGood(d, ws, R, REGION, 34)
  {
    var ids := FirstDiscovered(items);
    NotForGood(items);
  }

  lemma NotForGood(items: seq<OrderDoc>)
    requires Forgettable(items)
    ensures !FoundForGood(Example(items), [Snapshot1()], R, REGION, 34)
  {
    var d, ws := Example(items), [Snapshot1()];
    ExampleFaithful(items);
    ForgettableCommits(items);
    FoundForGoodIff(d, ws, R, REGION, 34, []);
    forall k, id, text | Archives(d, ws, 1, R.datasource, REGION, k, id, text) ensures text != "b" {
      assert OrdersIn(d, ws[k].payload) == Keyed(items);
    }
  }

  // ------------------------------------------------------------------- A, B, A

  const A: Bytes := [1]
  const B: Bytes := [2]

  /** Three snapshots of one minute: A, then B, then A again. */
  function BackAndForth(): seq<WriteArgs> {
    [WriteArgs(R, A, TIME_SERIES, 1, true), WriteArgs(R, B, TIME_SERIES, 2, true),
     WriteArgs(R, A, TIME_SERIES, 3, true)]
  }

  lemma AllDone(k: nat)
    requires k < 3
    ensures Log(SomeDeps(), BackAndForth())[k].done
  {
    assert Log(SomeDeps(), BackAndForth())[k] == CommitOf(SomeDeps(), BackAndForth(), k);
  }

  /** The latest write is A; what is read is B. */
  lemma ReadsOvertaken()
    ensures var d, ws := SomeDeps(), BackAndForth();
            && (forall k :: 0 <= k < 3 ==> Log(d, ws)[k].done) && ws[2].payload == A
            && Reads(d, After(d, ws, 3), R, Some(B))
            && forall payload :: Reads(d, After(d, ws, 3), R, payload) ==> payload == Some(B)
  {
    FaithfulIsPossible();
    forall k | 0 <= k < 3 ensures Log(SomeDeps(), BackAndForth())[k].done {
      AllDone(k);
    }
    BackAndForthReads(SomeDeps(), BackAndForth());
  }
}
