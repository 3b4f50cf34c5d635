/**
 The Redis hot cache (app/cache.py).

 Redis is six families of keys, each entry with its own expiry.  A pipeline is one
 atomic step; a SET whose expiry is not positive is rejected by itself, the other
 commands of the pipeline take effect, and the client raises afterwards.
 */
module Cache {
  import opened Common

  type Key = string
  type Time = real

  // ---------------------------------------------------------------- value coding

  const MAGIC: Bytes := [0, 0x7a, 0x63, 0]
  const ZSTD: Byte := 0x7a
  const ZLIB: Byte := 0x6c

  /** The compression libraries: `zstd` says which of the two is installed. */
  datatype Codec = Codec(zstd: bool, deflate: Bytes -> Bytes, inflateZstd: Bytes -> Bytes, inflateZlib: Bytes -> Bytes)

  ghost predicate RoundTrips(c: Codec) {
    forall b :: (if c.zstd then c.inflateZstd else c.inflateZlib)(c.deflate(b)) == b
  }

  function CompressValue(c: Codec, body: Bytes): Bytes {
    MAGIC + [if c.zstd then ZSTD else ZLIB] + c.deflate(body)
  }

  function DecodeValue(c: Codec, value: Bytes): Bytes {
    if !(MAGIC <= value) || |value| == 4 then value
    else if value[4] == ZSTD then c.inflateZstd(value[5..])
    else if value[4] == ZLIB then c.inflateZlib(value[5..])
    else value
  }

  datatype Config = Config(codec: Codec, compressMin: int)

  function Encode(cfg: Config, body: Bytes): Bytes {
    if |body| >= cfg.compressMin then CompressValue(cfg.codec, body) else body
  }

  predicate Plain(body: Bytes) {
    !(MAGIC <= body)
  }

  /** What is stored reads back, compressed or not, unless a raw body carries the magic. */
  lemma EncodeReadsBack(cfg: Config, body: Bytes)
    requires RoundTrips(cfg.codec)
    requires Plain(body) || |body| >= cfg.compressMin
    ensures DecodeValue(cfg.codec, Encode(cfg, body)) == body
  {
    if |body| >= cfg.compressMin {
      var v := CompressValue(cfg.codec, body);
      assert MAGIC <= v && v[5..] == cfg.codec.deflate(body);
    }
  }

  /** Bodies from the threshold on are stored compressed, behind the magic and the codec; smaller ones as they are. */
  lemma EncodedForm(cfg: Config, body: Bytes)
    ensures |body| < cfg.compressMin ==> Encode(cfg, body) == body
    ensures |body| >= cfg.compressMin ==>
              Encode(cfg, body) == [0, 122, 99, 0, if cfg.codec.zstd then 122 else 108] + cfg.codec.deflate(body)
  {
  }

  /** What reads back: a plain value as it is, a marked one through the codec it names, an unknown mark as it is. */
  lemma DecodedForm(c: Codec, data: Bytes, mark: Byte)
    ensures Plain(data) ==> DecodeValue(c, data) == data
    ensures DecodeValue(c, MAGIC + [mark] + data)
            == if mark == 122 then c.inflateZstd(data) else if mark == 108 then c.inflateZlib(data)
               else MAGIC + [mark] + data
  {
    var v := MAGIC + [mark] + data;
    assert v[5..] == data && MAGIC <= v;
  }

  // ----------------------------------------------------------------------- store

  datatype Entry<+V> = Entry(value: V, expires: Time)

  datatype Store = Store(
    body: map<Key, Entry<Bytes>>,
    stale: map<Key, Entry<Bytes>>,
    etag: map<Key, Entry<string>>,
    ttl: map<Key, Entry<int>>,
    negBody: map<Key, Entry<Bytes>>,
    negStatus: map<Key, Entry<int>>)

  /** GET at time `t`. */
  function Live<V>(m: map<Key, Entry<V>>, k: Key, t: Time): Option<V> {
    if k in m && t < m[k].expires then Some(m[k].value) else None
  }

  /** SET with EX at time `t`; a non-positive expiry is rejected. */
  function SetEx<V>(m: map<Key, Entry<V>>, k: Key, v: V, ex: int, t: Time): map<Key, Entry<V>> {
    if ex > 0 then m[k := Entry(v, t + ex as real)] else m
  }

  /** Python's truth of an optional string. */
  predicate Truthy(s: Option<string>) {
    s.Some? && s.value != ""
  }

  /** The arguments of one `CacheClient.set`, and when its pipeline runs. */
  datatype SetArgs = SetArgs(body: Bytes, ttl: int, etag: Option<string>, staleTtl: int, at: Time)

  predicate Rejected(a: SetArgs) {
    || a.ttl <= 0
    || (a.staleTtl > 0 && a.ttl + a.staleTtl <= 0)
    || (Truthy(a.etag) && a.ttl + 60 <= 0)
  }

  function AfterSet(cfg: Config, s: Store, k: Key, a: SetArgs): Store {
    var stored := Encode(cfg, a.body);
    Store(
      SetEx(s.body, k, stored, a.ttl, a.at),
      if a.staleTtl > 0 then SetEx(s.stale, k, stored, a.ttl + a.staleTtl, a.at) else s.stale - {k},
      if Truthy(a.etag) then SetEx(s.etag, k, a.etag.value, a.ttl + 60, a.at) else s.etag - {k},
      if Truthy(a.etag) then SetEx(s.ttl, k, a.ttl, a.ttl + 60, a.at) else s.ttl - {k},
      s.negBody - {k},
      s.negStatus - {k})
  }

  /** The arguments of one `CacheClient.set_negative`, and when its pipeline runs. */
  datatype NegArgs = NegArgs(body: Bytes, status: int, ttl: int, at: Time)

  function AfterSetNegative(s: Store, k: Key, n: NegArgs): Store {
    s.(negBody := SetEx(s.negBody, k, n.body, n.ttl, n.at), negStatus := SetEx(s.negStatus, k, n.status, n.ttl, n.at))
  }

  /** `get_stale` as a function of the store. */
  function StaleCopy(cfg: Config, s: Store, k: Key, now: Time): Option<Bytes> {
    match Live(s.stale, k, now)
    case None => None
    case Some(v) => Some(DecodeValue(cfg.codec, v))
  }

  class CacheClient {
    const cfg: Config
    var store: Store

    constructor (cfg: Config)
      ensures this.cfg == cfg && store == Store(map[], map[], map[], map[], map[], map[])
    {
      this.cfg := cfg;
      store := Store(map[], map[], map[], map[], map[], map[]);
    }

    function Get(k: Key, now: Time): Option<Bytes>
      reads this
    {
      match Live(store.body, k, now)
      case None => None
      case Some(v) => Some(DecodeValue(cfg.codec, v))
    }

    function GetStale(k: Key, now: Time): Option<Bytes>
      reads this
    {
      StaleCopy(cfg, store, k, now)
    }

    function GetTtl(k: Key, now: Time): Option<int>
      reads this
    {
      Live(store.ttl, k, now)
    }

    function GetNegative(k: Key, now: Time): Option<(Bytes, int)>
      reads this
    {
      match (Live(store.negBody, k, now), Live(store.negStatus, k, now))
      case (Some(b), Some(s)) => Some((b, s))
      case _ => None
    }

    function GetEtag(k: Key, now: Time): Option<string>
      reads this
    {
      Live(store.etag, k, now)
    }

    /** Other clients of the same Redis have run. */
    method Resume(others: Store)
      modifies this
      ensures store == others
    {
      store := others;
    }

    /** One pipeline: five keys set or deleted together, both negative keys deleted. */
    method Set(k: Key, a: SetArgs) returns (ok: bool)
      modifies this
      ensures store == AfterSet(cfg, old(store), k, a)
      ensures ok <==> !Rejected(a)
    {
      var stored := Encode(cfg, a.body);
      ok := a.ttl > 0;
      store := store.(body := SetEx(store.body, k, stored, a.ttl, a.at));
      if a.staleTtl > 0 {
        ok := ok && a.ttl + a.staleTtl > 0;
        store := store.(stale := SetEx(store.stale, k, stored, a.ttl + a.staleTtl, a.at));
      } else {
        store := store.(stale := store.stale - {k});
      }
      if Truthy(a.etag) {
        ok := ok && a.ttl + 60 > 0;
        store := store.(etag := SetEx(store.etag, k, a.etag.value, a.ttl + 60, a.at));
        store := store.(ttl := SetEx(store.ttl, k, a.ttl, a.ttl + 60, a.at));
      } else {
        store := store.(etag := store.etag - {k});
        store := store.(ttl := store.ttl - {k});
      }
      store := store.(negBody := store.negBody - {k});
      store := store.(negStatus := store.negStatus - {k});
    }

    method SetNegative(k: Key, body: Bytes, status: int, ttl: int, now: Time)
      modifies this
      ensures store == AfterSetNegative(old(store), k, NegArgs(body, status, ttl, now))
    {
      store := store.(negBody := SetEx(store.negBody, k, body, ttl, now));
      store := store.(negStatus := SetEx(store.negStatus, k, status, ttl, now));
    }
  }

  // -------------------------------------------------- what the five keys amount to

  /** Read from `now` on, the body key of `k` is there exactly for the span of one `set`. */
  ghost predicate BodyProjects(cfg: Config, s: Store, k: Key, hot: Option<SetArgs>, now: Time) {
    && (hot.Some? ==> hot.value.ttl > 0 && hot.value.at <= now)
    && (forall t {:trigger Live(s.body, k, t)} :: now <= t ==>
          Live(s.body, k, t) == if HotUntil(hot, t) then Some(Encode(cfg, hot.value.body)) else None)
  }

  /** The stale, ETag and TTL keys are those of one and the same `set`, each for its own span. */
  ghost predicate RestProjects(cfg: Config, s: Store, k: Key, last: Option<SetArgs>, now: Time) {
    && (last.Some? ==> last.value.ttl >= 0 && last.value.at <= now)
    && (forall t {:trigger Live(s.stale, k, t)} :: now <= t ==>
          Live(s.stale, k, t) == if StaleUntil(last, t) then Some(Encode(cfg, last.value.body)) else None)
    && (forall t {:trigger Live(s.etag, k, t)} :: now <= t ==>
          Live(s.etag, k, t) == if TaggedUntil(last, t) then last.value.etag else None)
    && (forall t {:trigger Live(s.ttl, k, t)} :: now <= t ==>
          Live(s.ttl, k, t) == if TaggedUntil(last, t) then Some(last.value.ttl) else None)
  }

  predicate HotUntil(hot: Option<SetArgs>, t: Time) {
    hot.Some? && t < hot.value.at + hot.value.ttl as real
  }

  predicate StaleUntil(last: Option<SetArgs>, t: Time) {
    last.Some? && last.value.staleTtl > 0 && t < last.value.at + (last.value.ttl + last.value.staleTtl) as real
  }

  predicate TaggedUntil(last: Option<SetArgs>, t: Time) {
    && last.Some? && last.value.etag.Some? && last.value.etag.value != ""
    && t < last.value.at + (last.value.ttl + 60) as real
  }

  predicate RefusedUntil(neg: Option<NegArgs>, t: Time) {
    neg.Some? && t < neg.value.at + neg.value.ttl as real
  }

  /** Both negative keys are those of one and the same `set_negative`, for its span. */
  ghost predicate NegativeProjects(s: Store, k: Key, neg: Option<NegArgs>, now: Time) {
    && (neg.Some? ==> neg.value.at <= now)
    && (forall t {:trigger Live(s.negBody, k, t)} :: now <= t ==>
          Live(s.negBody, k, t) == if RefusedUntil(neg, t) then Some(neg.value.body) else None)
    && (forall t {:trigger Live(s.negStatus, k, t)} :: now <= t ==>
          Live(s.negStatus, k, t) == if RefusedUntil(neg, t) then Some(neg.value.status) else None)
  }

  /**
   A `set` makes itself the one that stale, ETag and TTL keys project.  It is also the
   one the body key projects, unless its expiry is zero: then Redis refuses the body
   and whatever was there stays.
   */
  lemma SetProjects(cfg: Config, s: Store, k: Key, hot: Option<SetArgs>, last: Option<SetArgs>, now: Time, a: SetArgs)
    requires BodyProjects(cfg, s, k, hot, now) && RestProjects(cfg, s, k, last, now)
    requires now <= a.at && a.ttl >= 0
    ensures BodyProjects(cfg, AfterSet(cfg, s, k, a), k, if a.ttl > 0 then Some(a) else hot, a.at)
    ensures RestProjects(cfg, AfterSet(cfg, s, k, a), k, Some(a), a.at)
    ensures NegativeProjects(AfterSet(cfg, s, k, a), k, None, a.at)
  {
  }

  /** A `set_negative` makes itself the one that both negative keys project, and touches no positive one. */
  lemma SetNegativeProjects(cfg: Config, s: Store, k: Key, hot: Option<SetArgs>, last: Option<SetArgs>, now: Time,
                            n: NegArgs)
    requires BodyProjects(cfg, s, k, hot, now) && RestProjects(cfg, s, k, last, now)
    requires now <= n.at && n.ttl > 0
    ensures var s' := AfterSetNegative(s, k, n);
            && NegativeProjects(s', k, Some(n), n.at)
            && BodyProjects(cfg, s', k, hot, n.at) && RestProjects(cfg, s', k, last, n.at)
  {
  }

  /** One key reads the same in both stores. */
  ghost predicate Untouched<V>(m: map<Key, V>, m': map<Key, V>, k: Key) {
    (k in m <==> k in m') && (k in m ==> m[k] == m'[k])
  }

  ghost predicate KeyUntouched(s: Store, s': Store, k: Key) {
    && Untouched(s.body, s'.body, k) && Untouched(s.stale, s'.stale, k) && Untouched(s.etag, s'.etag, k)
    && Untouched(s.ttl, s'.ttl, k) && Untouched(s.negBody, s'.negBody, k) && Untouched(s.negStatus, s'.negStatus, k)
  }

  /** A `set` on one key leaves every other key as it was. */
  lemma SetElsewhere(cfg: Config, s: Store, k: Key, a: SetArgs, other: Key)
    requires other != k
    ensures KeyUntouched(s, AfterSet(cfg, s, k, a), other)
  {
  }

  lemma SetNegativeElsewhere(s: Store, k: Key, n: NegArgs, other: Key)
    requires other != k
    ensures KeyUntouched(s, AfterSetNegative(s, k, n), other)
  {
  }

  lemma UntouchedProjects(cfg: Config, s: Store, s': Store, k: Key, hot: Option<SetArgs>, last: Option<SetArgs>,
                          neg: Option<NegArgs>, now: Time, later: Time)
    requires KeyUntouched(s, s', k) && now <= later
    requires BodyProjects(cfg, s, k, hot, now) && RestProjects(cfg, s, k, last, now) && NegativeProjects(s, k, neg, now)
    ensures BodyProjects(cfg, s', k, hot, later)
            && RestProjects(cfg, s', k, last, later) && NegativeProjects(s', k, neg, later)
  {
    assert forall t :: Live(s'.body, k, t) == Live(s.body, k, t);
    assert forall t :: Live(s'.stale, k, t) == Live(s.stale, k, t);
    assert forall t :: Live(s'.etag, k, t) == Live(s.etag, k, t);
    assert forall t :: Live(s'.ttl, k, t) == Live(s.ttl, k, t);
    assert forall t :: Live(s'.negBody, k, t) == Live(s.negBody, k, t);
    assert forall t :: Live(s'.negStatus, k, t) == Live(s.negStatus, k, t);
  }
}
