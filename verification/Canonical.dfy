/**
 Canonical batch bodies (app/allowlist.py:184-209, app/proxy.py:251-270).

 A batch body is sorted by the JSON text of its items and stripped of duplicates
 before it is hashed, forwarded and archived.
 */
module Canonical {
  import opened Common
  import opened JsonText

  // ---------------------------------------------------------------- text order

  /** Python's order on strings: by code point, a proper prefix first. */
  predicate Below(a: string, b: string) {
    if a == "" || b == "" then a == "" && b != ""
    else a[0] < b[0] || (a[0] == b[0] && Below(a[1..], b[1..]))
  }

  lemma {:induction false} BelowTotal(a: string, b: string)
    ensures a == b || Below(a, b) || Below(b, a)
    ensures !(Below(a, b) && Below(b, a)) && !Below(a, a)
    decreases |a|
  {
    if a != "" {
      BelowTotal(a[1..], a[1..]);
      if b != "" {
        BelowTotal(a[1..], b[1..]);
        if a[0] == b[0] && a[1..] == b[1..] { Cons(a, b); }
      }
    }
  }

  lemma {:induction false} BelowTransitive(a: string, b: string, c: string)
    requires Below(a, b) && Below(b, c)
    ensures Below(a, c)
    decreases |a|
  {
    if a != "" && a[0] == b[0] && b[0] == c[0] {
      BelowTransitive(a[1..], b[1..], c[1..]);
    }
  }

  ghost predicate Before(i: Item, j: Item) {
    Below(DumpItem(i), DumpItem(j))
  }

  /** Strictly increasing, hence free of duplicates. */
  ghost predicate Ordered(items: seq<Item>) {
    forall i, j :: 0 <= i < j < |items| ==> Before(items[i], items[j])
  }

  ghost function Members(items: seq<Item>): set<Item> {
    set i | i in items
  }

  /** Only one strictly increasing list has a given set of items. */
  lemma {:induction false} OrderedUnique(xs: seq<Item>, ys: seq<Item>)
    requires Ordered(xs) && Ordered(ys) && Members(xs) == Members(ys)
    ensures xs == ys
    decreases |xs|
  {
    NoMembers(xs);
    NoMembers(ys);
    if xs != [] {
      assert xs[0] in Members(ys) && ys[0] in Members(xs);
      BelowTotal(DumpItem(xs[0]), DumpItem(ys[0]));
      HeadLeast(xs, ys[0]);
      HeadLeast(ys, xs[0]);
      assert xs[0] == ys[0];
      TailMembers(xs);
      TailMembers(ys);
      OrderedUnique(xs[1..], ys[1..]);
      Cons(xs, ys);
    }
  }

  lemma NoMembers(xs: seq<Item>)
    ensures xs == [] <==> Members(xs) == {}
  {
    if xs != [] { assert xs[0] in Members(xs); }
  }

  lemma HeadLeast(xs: seq<Item>, i: Item)
    requires Ordered(xs) && i in xs
    ensures i == xs[0] || Before(xs[0], i)
  {
    var k :| 0 <= k < |xs| && xs[k] == i;
  }

  lemma TailMembers(xs: seq<Item>)
    requires Ordered(xs) && xs != []
    ensures Members(xs[1..]) == Members(xs) - {xs[0]}
  {
    BelowTotal(DumpItem(xs[0]), DumpItem(xs[0]));
    assert xs == [xs[0]] + xs[1..];
    forall k | 0 <= k < |xs[1..]| ensures xs[1..][k] != xs[0] {
      assert Before(xs[0], xs[k + 1]);
    }
  }

  // ------------------------------------------------- the canonical list of a batch

  ghost function Place(i: Item, items: seq<Item>): seq<Item> {
    if items == [] || Before(i, items[0]) then [i] + items
    else if items[0] == i then items
    else [items[0]] + Place(i, items[1..])
  }

  /** The reference: every item put in its place, once. */
  ghost function Canon(items: seq<Item>): seq<Item> {
    if items == [] then [] else Place(items[0], Canon(items[1..]))
  }

  lemma {:induction false} PlaceMembers(i: Item, items: seq<Item>)
    ensures forall x :: x in Place(i, items) <==> x == i || x in items
    decreases |items|
  {
    if items != [] && !Before(i, items[0]) && items[0] != i {
      PlaceMembers(i, items[1..]);
      assert items == [items[0]] + items[1..];
    }
  }

  lemma AddHead(i: Item, items: seq<Item>)
    requires Ordered(items) && forall x :: x in items ==> Before(i, x)
    ensures Ordered([i] + items)
  {
    var all := [i] + items;
    forall j, k | 0 <= j < k < |all| ensures Before(all[j], all[k]) {
      assert all[k] == items[k - 1];
    }
  }

  lemma {:induction false} PlaceKeeps(i: Item, items: seq<Item>)
    requires Ordered(items)
    ensures Ordered(Place(i, items))
    decreases |items|
  {
    if items == [] {
    } else if Before(i, items[0]) {
      forall x | x in items ensures Before(i, x) {
        HeadLeast(items, x);
        if x != items[0] { BelowTransitive(DumpItem(i), DumpItem(items[0]), DumpItem(x)); }
      }
      AddHead(i, items);
    } else if items[0] != i {
      PlaceKeeps(i, items[1..]);
      PlaceMembers(i, items[1..]);
      TailMembers(items);
      BelowTotal(DumpItem(i), DumpItem(items[0]));
      if DumpItem(i) == DumpItem(items[0]) { ItemInjective(i, items[0]); }
      forall x | x in Place(i, items[1..]) ensures Before(items[0], x) {
        if x != i {
          assert x in Members(items[1..]);
          HeadLeast(items, x);
        }
      }
      AddHead(items[0], Place(i, items[1..]));
    }
  }

  lemma {:induction false} CanonOrders(items: seq<Item>)
    ensures Ordered(Canon(items)) && Members(Canon(items)) == Members(items)
    decreases |items|
  {
    if items != [] {
      CanonOrders(items[1..]);
      PlaceKeeps(items[0], Canon(items[1..]));
      PlaceMembers(items[0], Canon(items[1..]));
      assert forall x :: x in Canon(items[1..]) <==> x in Members(Canon(items[1..]));
      assert forall x :: x in items[1..] <==> x in Members(items[1..]);
      assert items == [items[0]] + items[1..];
    }
  }

  /** Canonical lists are equal exactly when the batches have the same items. */
  lemma CanonCharacterised(xs: seq<Item>, ys: seq<Item>)
    ensures Canon(xs) == Canon(ys) <==> Members(xs) == Members(ys)
    ensures Canon(Canon(xs)) == Canon(xs)
  {
    CanonOrders(xs);
    CanonOrders(ys);
    CanonOrders(Canon(xs));
    if Members(xs) == Members(ys) { OrderedUnique(Canon(xs), Canon(ys)); }
    OrderedUnique(Canon(Canon(xs)), Canon(xs));
  }

  // --------------------------------------------------------------- normalising

  /** `sorted(parsed, key=json.dumps)`: equal items end up side by side. */
  function Insert(i: Item, items: seq<Item>): seq<Item> {
    if items == [] || !Below(DumpItem(items[0]), DumpItem(i)) then [i] + items
    else [items[0]] + Insert(i, items[1..])
  }

  function Sorted(items: seq<Item>): seq<Item> {
    if items == [] then [] else Insert(items[0], Sorted(items[1..]))
  }

  lemma NotBelowChain(a: string, b: string, c: string)
    requires !Below(b, a) && !Below(c, b)
    ensures !Below(c, a)
  {
    BelowTotal(a, b);
    BelowTotal(b, c);
    BelowTotal(a, c);
    if Below(a, b) && Below(b, c) { BelowTransitive(a, b, c); }
  }

  lemma {:induction false} InsertMembers(i: Item, items: seq<Item>)
    ensures forall x :: x in Insert(i, items) <==> x == i || x in items
    decreases |items|
  {
    if items != [] && Below(DumpItem(items[0]), DumpItem(i)) {
      InsertMembers(i, items[1..]);
      assert items == [items[0]] + items[1..];
    }
  }

  /** Every later item is at least as large as `i`. */
  ghost predicate AtLeast(i: Item, items: seq<Item>) {
    forall x :: x in items ==> !Before(x, i)
  }

  ghost predicate NeverDescends(items: seq<Item>) {
    items != [] ==> AtLeast(items[0], items[1..]) && NeverDescends(items[1..])
  }

  lemma {:induction false} InsertSorts(i: Item, items: seq<Item>)
    requires NeverDescends(items)
    ensures NeverDescends(Insert(i, items))
    decreases |items|
  {
    if items == [] {
    } else if !Below(DumpItem(items[0]), DumpItem(i)) {
      forall x | x in items ensures !Before(x, i) {
        BelowTotal(DumpItem(i), DumpItem(i));
        if x != items[0] {
          assert x in items[1..];
          NotBelowChain(DumpItem(i), DumpItem(items[0]), DumpItem(x));
        }
      }
      assert ([i] + items)[1..] == items;
    } else {
      InsertSorts(i, items[1..]);
      InsertMembers(i, items[1..]);
      BelowTotal(DumpItem(items[0]), DumpItem(i));
      var rest := Insert(i, items[1..]);
      assert AtLeast(items[0], rest);
      assert ([items[0]] + rest)[1..] == rest;
    }
  }

  lemma {:induction false} SortedSorts(items: seq<Item>)
    ensures NeverDescends(Sorted(items))
    ensures forall x :: x in Sorted(items) <==> x in items
    decreases |items|
  {
    if items != [] {
      SortedSorts(items[1..]);
      InsertSorts(items[0], Sorted(items[1..]));
      InsertMembers(items[0], Sorted(items[1..]));
      assert items == [items[0]] + items[1..];
    }
  }

  /** The normalising loop: sort by text, then skip what has been seen. */
  method NormalizeList(parsed: seq<Item>) returns (normalized: seq<Item>)
    ensures normalized == Canon(parsed)
    ensures Ordered(normalized) && Members(normalized) == Members(parsed)
  {
    var sorted := Sorted(parsed);
    SortedSorts(parsed);
    var seen: set<string> := {};
    normalized := [];
    ghost var rest := sorted;
    for k := 0 to |sorted|
      invariant rest == sorted[k..] && NeverDescends(rest)
      invariant seen == set i | i in normalized :: DumpItem(i)
      invariant Ordered(normalized)
      invariant forall i, x :: i in normalized && x in rest ==> !Before(x, i)
      invariant forall x :: x in parsed <==> x in normalized || x in rest
    {
      var item := sorted[k];
      assert rest[0] == item && rest == [item] + rest[1..];
      var marker := DumpItem(item);
      if marker in seen {
        var i :| i in normalized && DumpItem(i) == marker;
        ItemInjective(i, item);
      } else {
        forall i | i in normalized ensures Before(i, item) {
          assert !Before(item, i);
          BelowTotal(DumpItem(i), marker);
        }
        seen := seen + {marker};
        normalized := normalized + [item];
      }
      rest := rest[1..];
    }
    CanonOrders(parsed);
    OrderedUnique(normalized, Canon(parsed));
  }

  // -------------------------------------------------------------------- bodies

  /** What `json.loads` makes of a body, as far as batches are concerned. */
  datatype Parsed =
    | Invalid                     // not JSON
    | NotAList
    | Mixed(size: nat)            // a list with items other than integers and strings
    | Batch(items: seq<Item>)

  type Loads = string -> Parsed

  /** `json.loads` reads back what `json.dumps` wrote. */
  ghost predicate ReadsBack(loads: Loads) {
    forall items :: loads(DumpList(items)) == Batch(items)
  }

  /** The error message for a POST body, or None if it is acceptable. */
  function ValidatePostBody(loads: Loads, body: string, maxItems: int): Option<string> {
    if body == "" then Some("POST body required")
    else match loads(body)
      case Invalid => Some("invalid JSON body")
      case NotAList => Some("POST body must be a JSON list")
      case Mixed(size) =>
        if size > maxItems then Some("POST batch too large")
        else Some("POST batch items must be strings or integers")
      case Batch(items) => if |items| > maxItems then Some("POST batch too large") else None
  }

  /** A batch passes exactly if it is a JSON list of at most so many integers and strings. */
  lemma AcceptedBodies(loads: Loads, body: string, maxItems: int)
    ensures ValidatePostBody(loads, body, maxItems) == None <==>
              body != "" && loads(body).Batch? && |loads(body).items| <= maxItems
    ensures body != "" && (loads(body).Mixed? || loads(body).Batch?) ==>
              (ValidatePostBody(loads, body, maxItems) == Some("POST batch too large") <==>
                 maxItems < if loads(body).Mixed? then loads(body).size else |loads(body).items|)
  {
  }

  /** `normalize_body` on the bodies that validation lets through. */
  ghost function NormalizeBody(loads: Loads, body: string): string {
    if body != "" && loads(body).Batch? then DumpList(Canon(loads(body).items)) else body
  }

  /**
   Two accepted bodies have the same canonical text exactly when they hold the same
   set of items, and normalising a canonical text changes nothing.
   */
  lemma BatchCanonicalisation(loads: Loads, a: string, b: string, maxItems: int)
    requires ReadsBack(loads)
    requires ValidatePostBody(loads, a, maxItems) == None && ValidatePostBody(loads, b, maxItems) == None
    ensures NormalizeBody(loads, a) == NormalizeBody(loads, b)
            <==> Members(loads(a).items) == Members(loads(b).items)
    ensures NormalizeBody(loads, NormalizeBody(loads, a)) == NormalizeBody(loads, a)
    ensures NormalizeBody(loads, a) != ""
    ensures ValidatePostBody(loads, NormalizeBody(loads, a), |loads(a).items|) == None
  {
    var xs, ys := loads(a).items, loads(b).items;
    CanonCharacterised(xs, ys);
    if NormalizeBody(loads, a) == NormalizeBody(loads, b) { ListInjective(Canon(xs), Canon(ys)); }
    assert loads(DumpList(Canon(xs))) == Batch(Canon(xs));
    CanonShorter(xs);
  }

  lemma {:induction false} CanonShorter(items: seq<Item>)
    ensures |Canon(items)| <= |items|
    decreases |items|
  {
    if items != [] {
      CanonShorter(items[1..]);
      PlaceGrows(items[0], Canon(items[1..]));
    }
  }

  lemma {:induction false} PlaceGrows(i: Item, items: seq<Item>)
    ensures |Place(i, items)| <= |items| + 1
    decreases |items|
  {
    if items != [] && !Before(i, items[0]) && items[0] != i {
      PlaceGrows(i, items[1..]);
    }
  }
}
