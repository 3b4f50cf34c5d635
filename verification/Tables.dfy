/**
 The archive's tables and the statements run on them (app/db.py, app/archive.py).

 A table with a uniqueness constraint is a map from the constrained columns; an
 ON CONFLICT clause says what happens when the key is taken.
 */
module Tables {
  import opened Common

  /** Text in which the separator of idempotency keys cannot occur. */
  type Field = s: string | forall i :: 0 <= i < |s| ==> s[i] != '\0'

  /** The text of JSON null, which a JSONB column gives back as an absent value. */
  const JSON_NULL := "null"

  type Moment = int   // microseconds since the epoch

  const MINUTE := 60_000_000

  function Bucket(t: Moment): int {
    t / MINUTE
  }

  /** Two moments share their bucket exactly when no full minute lies between them. */
  lemma BucketIsMinute(t: Moment, u: Moment)
    ensures Bucket(t) == Bucket(u) <==> exists m: int :: InMinute(m, t) && InMinute(m, u)
  {
    assert InMinute(Bucket(t), t) && InMinute(Bucket(u), u);
  }

  /** `t` lies in the m-th minute. */
  predicate InMinute(m: int, t: Moment) {
    60_000_000 * m <= t < 60_000_000 * (m + 1)
  }

  /** What `int(o["type_id"])` makes of an item of a payload. */
  datatype ItemType =
    | Untyped            // not an object, or without type_id
    | Malformed          // TypeError or ValueError
    | Overflows          // OverflowError
    | TypeId(id: int)

  /** An item of a market-orders payload. */
  datatype OrderDoc =
    | Unkeyed(typed: ItemType)           // not an object, or without order_id: not archived as an order
    | BadId(typed: ItemType)             // int(order_id) raises
    | Order(id: int, text: string)       // its canonical JSON text

  datatype OrdersDoc =
    | NotOrders                          // not JSON, or not a list
    | Orders(orders: seq<OrderDoc>)

  /** The libraries and settings behind the archive. */
  datatype Deps = Deps(
    sha: Bytes -> Field,
    shaText: string -> Field,
    isoMinute: int -> Field,
    compress: Bytes -> Bytes,
    decompress: Bytes -> Bytes,
    parseOrders: Bytes -> OrdersDoc,
    parseJson: Bytes -> Option<string>,
    dumpJson: string -> Bytes,
    regionOf: Field -> Option<int>,      // the region of a market-orders path
    typed: string -> ItemType,           // int(o["type_id"]) of an order, from its text
    typeText: string -> Option<string>,  // payload ->> 'type_id' of the stored order
    parseInt: string -> Option<int>,     // int() of that text
    parquet: bool,                       // enabled and pyarrow installed
    deltas: bool)

  /** No collisions, nothing lost in compression. */
  ghost predicate Faithful(d: Deps) {
    && (forall a, b :: d.sha(a) == d.sha(b) ==> a == b)
    && (forall a, b :: d.shaText(a) == d.shaText(b) ==> a == b)
    && (forall m, n :: d.isoMinute(m) == d.isoMinute(n) ==> m == n)
    && (forall b :: d.decompress(d.compress(b)) == b)
  }

  // -------------------------------------------- the assumption is consistent

  /** Two characters, neither of them NUL, for each one. */
  function Spread(s: string): (f: Field)
    ensures |f| == 2 * |s|
  {
    if s == "" then ""
    else
      var n := s[0] as int;
      [(n / 256 + 1) as char, (n % 256 + 1) as char] + Spread(s[1..])
  }

  lemma {:induction false} SpreadInjective(a: string, b: string)
    requires Spread(a) == Spread(b)
    ensures a == b
    decreases |a|
  {
    assert |a| == |b|;
    if a != "" {
      var f, m, n := Spread(a), a[0] as int, b[0] as int;
      assert f[0] == (m / 256 + 1) as char == (n / 256 + 1) as char;
      assert f[1] == (m % 256 + 1) as char == (n % 256 + 1) as char;
      assert m == 256 * (m / 256) + m % 256 == n;
      assert Spread(a[1..]) == f[2..] == Spread(b[1..]);
      SpreadInjective(a[1..], b[1..]);
      assert a == [a[0]] + a[1..] && b == [b[0]] + b[1..];
    }
  }

  function Letters(b: Bytes): string {
    seq(|b|, i requires 0 <= i < |b| => b[i] as int as char)
  }

  lemma LettersInjective(a: Bytes, b: Bytes)
    requires Letters(a) == Letters(b)
    ensures a == b
  {
    assert |a| == |Letters(a)| == |b|;
    forall i | 0 <= i < |a| ensures a[i] == b[i] {
      assert Letters(a)[i] as int == a[i] as int && Letters(b)[i] as int == b[i] as int;
    }
  }

  function Tally(n: int): Field {
    if n >= 0 then seq(n + 1, _ => '+') else seq(-n, _ => '-')
  }

  function SomeDeps(): Deps {
    Deps(b => Spread(Letters(b)), s => Spread(s), n => Tally(n), b => b, b => b, _ => NotOrders, _ => None, _ => [],
         _ => None, _ => Untyped, _ => None, _ => None, true, true)
  }

  /** Some libraries are faithful, so nothing below is proved of none. */
  lemma FaithfulIsPossible()
    ensures Faithful(SomeDeps())
  {
    var d := SomeDeps();
    forall a, b | d.sha(a) == d.sha(b) ensures a == b {
      SpreadInjective(Letters(a), Letters(b));
      LettersInjective(a, b);
    }
    forall a, b | d.shaText(a) == d.shaText(b) ensures a == b {
      SpreadInjective(a, b);
    }
    forall m, n | d.isoMinute(m) == d.isoMinute(n) ensures m == n {
      assert Tally(m)[0] == Tally(n)[0] && |Tally(m)| == |Tally(n)|;
    }
  }

  // ---------------------------------------------------------------- idempotency

  /** Which resource a snapshot is of. */
  datatype Resource = Resource(datasource: Field, path: Field, queryHash: Field)

  function Joined(r: Resource, minute: Field, contentHash: Field): string {
    r.datasource + ("\0" + (r.path + ("\0" + (r.queryHash + ("\0" + (minute + ("\0" + contentHash)))))))
  }

  function IdempotencyKey(d: Deps, r: Resource, at: Moment, contentHash: Field): Field {
    d.shaText(Joined(r, d.isoMinute(Bucket(at)), contentHash))
  }

  lemma FieldSplits(a: Field, b: Field, x: string, y: string)
    requires a + ("\0" + x) == b + ("\0" + y)
    ensures a == b && x == y
  {
    var s := a + ("\0" + x);
    assert s[|a|] == '\0' && s[|b|] == '\0';
    assert forall i :: 0 <= i < |a| ==> s[i] == a[i];
    assert forall i :: 0 <= i < |b| ==> s[i] == b[i];
    assert |a| == |b|;
    assert a == s[..|a|] == b;
    assert x == s[|a| + 1..] && y == s[|b| + 1..];
  }

  /** Equal idempotency keys mean the same resource, the same minute and the same content. */
  lemma IdempotencyKeyInjective(d: Deps, r: Resource, s: Resource, t: Moment, u: Moment, g: Field, h: Field)
    requires Faithful(d) && IdempotencyKey(d, r, t, g) == IdempotencyKey(d, s, u, h)
    ensures r == s && Bucket(t) == Bucket(u) && g == h
  {
    var m, n := d.isoMinute(Bucket(t)), d.isoMinute(Bucket(u));
    assert Joined(r, m, g) == Joined(s, n, h);
    FieldSplits(r.datasource, s.datasource,
                r.path + ("\0" + (r.queryHash + ("\0" + (m + ("\0" + g))))),
                s.path + ("\0" + (s.queryHash + ("\0" + (n + ("\0" + h))))));
    FieldSplits(r.path, s.path, r.queryHash + ("\0" + (m + ("\0" + g))), s.queryHash + ("\0" + (n + ("\0" + h))));
    FieldSplits(r.queryHash, s.queryHash, m + ("\0" + g), n + ("\0" + h));
    FieldSplits(m, n, g, h);
  }

  // --------------------------------------------------------------------- tables

  datatype Storage = CompressedJson | MarketParquetDelta

  datatype Snapshot = Snapshot(
    resource: Resource,
    contentHash: Field,
    storage: Storage,
    manifest: Option<int>,
    fetchedAt: Moment)

  datatype Manifest = Manifest(id: int, rowCount: int)

  /** market_order_versions: keyed by datasource, order id and version hash. */
  datatype VersionKey = VersionKey(datasource: Field, orderId: int, hash: Field)
  datatype Version = Version(payload: string, firstSeen: Moment, lastSeen: Moment)

  /** market_order_snapshot_entries: keyed by snapshot id and order id. */
  datatype EntryKey = EntryKey(snapshot: int, orderId: int)
  datatype Entry = Entry(hash: Field, region: int)

  datatype Reference = Reference(payload: string, contentHash: Field, firstSeen: Moment, lastUpdated: Moment)
  datatype Event = Event(payload: string, contentHash: Field, fetchedAt: Moment)

  datatype Tables = Tables(
    blobs: map<Field, Bytes>,             // compressed payloads by content hash
    snapshots: map<int, Snapshot>,        // archive_timeseries by id
    byKey: map<Field, int>,               // its unique index on idempotency_key
    manifests: map<Field, Manifest>,      // archive_object_files by content hash
    versions: map<VersionKey, Version>,
    entries: map<EntryKey, Entry>,
    references: map<Resource, Reference>,
    events: map<Resource, Event>,
    nextSnapshot: int,
    nextManifest: int)

  function NoTables(): Tables {
    Tables(map[], map[], map[], map[], map[], map[], map[], map[], 1, 1)
  }

  /** INSERT ... ON CONFLICT DO NOTHING. */
  function InsertIfAbsent<K, V>(m: map<K, V>, k: K, v: V): map<K, V> {
    if k in m then m else m[k := v]
  }
}
