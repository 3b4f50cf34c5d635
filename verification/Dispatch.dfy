/**
 One dispatch, from the hot-cache lookup on (app/proxy.py:134-248, 273-314).

 A dispatch is suspended at every round trip, and others run in between.  `Phase` says
 before which round trip it stands and what it remembers, `Advance` and `Settle` what
 it makes of the next answer.  The method `Dispatch` is the procedure, resumed turn by
 turn with the store as the others have left it; whole runs of many dispatches are
 built from the same functions in `DispatchRuns`.
 */
module Dispatch {
  import opened Common
  import opened Cache
  import opened Esi
  import Breaker

  type Resp = ESIResponse<Bytes>
  type TaskId = nat

  datatype Settings = Settings(staleCacheSeconds: int, staleCacheMaxBodyBytes: int, negativeCacheTtlSeconds: int)

  datatype CacheStatus = HIT | MISS | STALE | ARCHIVE_FALLBACK | ERROR

  datatype Reply =
    | Reply(status: int, body: Bytes, cache: CacheStatus, location: Option<string>)
    | Raised                                   // Redis rejected a SET; the request ends in an exception
    | Skipped                                  // a collector that got anything but a 200

  function StaleTtlFor(st: Settings, body: Bytes): int {
    if st.staleCacheMaxBodyBytes > 0 && |body| > st.staleCacheMaxBodyBytes then 0 else st.staleCacheSeconds
  }

  // --------------------------------------------------------------------- phases

  /** A coalesced execution is named after its leader; `again` marks the derived refetch key. */
  datatype Call = Call(leader: TaskId, again: bool)

  /** When an execution began, when upstream answered it, and when that answer was back. */
  datatype Span = Span(since: Time, at: Time, received: Time)

  /** What an execution came to: the ETag it sent, the response, and when. */
  datatype Fetch = Fetch(call: Call, sent: Option<string>, resp: Resp, span: Span)

  /** An execution under way; a collector's own is not `shared`. */
  datatype Trip = Trip(again: bool, shared: bool, sent: Option<string>, since: Time)

  /** A cache write about to be made; `isNew` marks a 200, which is archived afterwards. */
  datatype Pending =
    | Putting(body: Bytes, ttl: int, etag: Option<string>, isNew: bool)
    | Refusing(body: Bytes, status: int, ttl: int)

  datatype Phase =
    | Looking                                              // before the lookup of the body
    | Missed                                               // before the lookup of the negative entry
    | Unread                                               // before the read of the ETag
    | Ready(again: bool, sent: Option<string>)             // about to coalesce
    | Fetching(trip: Trip)                                 // leads an execution that upstream has yet to answer
    | Returning(trip: Trip, resp: Resp, at: Time)          // upstream has answered; the answer is on its way back
    | Waiting(call: Call)                                  // waits for somebody else's
    | Reviving(f: Fetch, leads: bool)                      // after a 304, before the read of the stale copy
    | Held(f: Fetch, leads: bool, body: Bytes)             // has it, before the read of the stored TTL
    | Degraded(f: Fetch)                                   // before the fallback reads
    | Writing(w: Pending, f: Fetch)                        // before its one cache write
    | Finished(reply: Reply, basis: Option<Fetch>, archives: Option<Bytes>)

  /** The write that stores a 200. */
  function Keeping(r: Resp): Pending {
    Putting(r.body, Breaker.Or(r.maxAge, 300), r.etag, true)
  }

  /** What an answer to a coalesced call leads to. */
  function Settle(st: Settings, f: Fetch, leads: bool): Phase {
    var r := f.resp;
    if r.notModified && !f.call.again then Reviving(f, leads)
    else if r.status == 200 then
      if leads then Writing(Keeping(r), f)
      else Finished(Reply(200, r.body, MISS, None), Some(f), None)
    else if r.status == 420 || r.status >= 500 then Degraded(f)
    else if 300 <= r.status < 400 then Finished(Reply(r.status, r.body, MISS, r.location), Some(f), None)
    else
      var ttl := if r.maxAge.Some? then r.maxAge.value else st.negativeCacheTtlSeconds;
      if 400 <= r.status < 500 && r.status != 429 && ttl > 0 then Writing(Refusing(r.body, r.status, ttl), f)
      else Finished(Reply(r.status, r.body, MISS, None), Some(f), None)
  }

  /** A 304 and the body it validates. */
  function Revive(f: Fetch, leads: bool, body: Bytes, ttl: int): Phase {
    if leads then Writing(Putting(body, ttl, if Truthy(f.resp.etag) then f.resp.etag else f.sent, false), f)
    else Finished(Reply(200, body, MISS, None), Some(f), None)
  }

  datatype Effect =
    | NoEffect
    | DidSet(args: SetArgs)
    | DidSetNegative(refused: NegArgs)

  function Apply(cfg: Config, s: Store, k: Key, e: Effect): Store {
    match e
    case NoEffect => s
    case DidSet(a) => AfterSet(cfg, s, k, a)
    case DidSetNegative(n) => AfterSetNegative(s, k, n)
  }

  function ArgsOf(st: Settings, w: Pending, at: Time): SetArgs
    requires w.Putting?
  {
    SetArgs(w.body, w.ttl, w.etag, StaleTtlFor(st, w.body), at)
  }

  function WriteEffect(st: Settings, w: Pending, at: Time): Effect {
    match w
    case Putting(_, _, _, _) => DidSet(ArgsOf(st, w, at))
    case Refusing(b, status, ttl) => DidSetNegative(NegArgs(b, status, ttl, at))
  }

  function Written(st: Settings, w: Pending, f: Fetch, at: Time): Phase {
    match w
    case Putting(b, _, _, isNew) =>
      if Rejected(ArgsOf(st, w, at)) then Finished(Raised, Some(f), None)
      else Finished(Reply(200, b, MISS, None), Some(f), if isNew then Some(b) else None)
    case Refusing(b, status, _) => Finished(Reply(status, b, MISS, None), Some(f), None)
  }

  /** What the archive holds, and the JSON error envelope. */
  datatype Fallback = Fallback(archived: Option<Bytes>, envelope: Bytes)

  function Degrade(cfg: Config, k: Key, s: Store, f: Fetch, at: Time, fb: Fallback): Reply {
    match StaleCopy(cfg, s, k, at)
    case Some(b) => Reply(200, b, STALE, None)
    case None =>
      if fb.archived.Some? && fb.archived.value != [] then Reply(200, fb.archived.value, ARCHIVE_FALLBACK, None)
      else Reply(f.resp.status, fb.envelope, ERROR, None)
  }

  predicate OnItsOwn(p: Phase) {
    p.Looking? || p.Missed? || p.Unread? || p.Reviving? || p.Held? || p.Degraded? || p.Writing?
  }

  /** One round trip to Redis at time `at`, finding the store `s`. */
  function Advance(cfg: Config, st: Settings, k: Key, s: Store, p: Phase, at: Time, fb: Fallback): Phase
    requires OnItsOwn(p)
  {
    match p
    case Looking =>
      (match Live(s.body, k, at)
       case Some(v) => Finished(Reply(200, DecodeValue(cfg.codec, v), HIT, None), None, None)
       case None => Missed)
    case Missed =>
      (match (Live(s.negBody, k, at), Live(s.negStatus, k, at))
       case (Some(b), Some(status)) => Finished(Reply(status, b, HIT, None), None, None)
       case _ => Unread)
    case Unread => Ready(false, Live(s.etag, k, at))
    case Reviving(f, leads) =>
      (match StaleCopy(cfg, s, k, at)
       case None => Ready(true, None)
       case Some(b) =>
         if f.resp.maxAge.Some? then Revive(f, leads, b, f.resp.maxAge.value) else Held(f, leads, b))
    case Held(f, leads, b) => Revive(f, leads, b, Breaker.Or(Live(s.ttl, k, at), 300))
    case Degraded(f) => Finished(Degrade(cfg, k, s, f, at, fb), Some(f), None)
    case Writing(w, f) => Written(st, w, f, at)
  }

  function EffectOf(st: Settings, p: Phase, at: Time): Effect {
    if p.Writing? then WriteEffect(st, p.w, at) else NoEffect
  }

  // ------------------------------------------------------------------ one dispatch

  /**
   One resumption of a dispatch: the store as the others left it, the time, and, if it
   is about to coalesce, whether it leads, how upstream answers and when.
   */
  datatype Turn = Turn(store: Store, at: Time, leads: bool, leader: TaskId, leaderSent: Option<string>,
                       answer: Option<string> -> Resp, span: Span, fb: Fallback)

  type Script = nat -> Turn

  function Coalesced(turn: Turn, again: bool, sent: Option<string>): Fetch {
    Fetch(Call(turn.leader, again), if turn.leads then sent else turn.leaderSent, turn.answer(sent), turn.span)
  }

  function Rank(p: Phase): nat {
    match p
    case Looking => 9
    case Missed => 8
    case Unread => 7
    case Ready(again, _) => if again then 4 else 6
    case Reviving(_, _) => 5
    case Held(_, _, _) => 3
    case Degraded(_) => 2
    case Writing(_, _) => 1
    case _ => 0
  }

  /** Where a dispatch ends up from phase `p` on, and the store it leaves. */
  function Played(cfg: Config, st: Settings, k: Key, p: Phase, script: Script, i: nat, s: Store): (Phase, Store)
    decreases Rank(p)
  {
    var turn := script(i);
    if p.Ready? then
      Played(cfg, st, k, Settle(st, Coalesced(turn, p.again, p.sent), turn.leads), script, i + 1, turn.store)
    else if OnItsOwn(p) then
      Played(cfg, st, k, Advance(cfg, st, k, turn.store, p, turn.at, turn.fb), script, i + 1,
             Apply(cfg, turn.store, k, EffectOf(st, p, turn.at)))
    else (p, s)
  }

  /** The reply, what goes to the archive and the store fit the end of the play. */
  predicate EndsLike(end: (Phase, Store), reply: Reply, archives: Option<Bytes>, s: Store) {
    end.0.Finished? && end.0.reply == reply && end.0.archives == archives && end.1 == s
  }

  /** The write is the last round trip. */
  lemma WriteEnds(cfg: Config, st: Settings, k: Key, w: Pending, f: Fetch, script: Script, i: nat, s: Store)
    ensures var turn := script(i);
            Played(cfg, st, k, Writing(w, f), script, i, s)
            == (Written(st, w, f, turn.at), Apply(cfg, turn.store, k, WriteEffect(st, w, turn.at)))
  {
  }

  /** `_dispatch` itself, once the request is admitted and its key is built. */
  method Dispatch(cache: CacheClient, st: Settings, k: Key, script: Script)
    returns (reply: Reply, archives: Option<Bytes>)
    modifies cache
    ensures EndsLike(Played(cache.cfg, st, k, Looking, script, 0, old(cache.store)), reply, archives, cache.store)
  {
    ghost var end := Played(cache.cfg, st, k, Looking, script, 0, cache.store);
    archives := None;
    var turn := script(0);
    cache.Resume(turn.store);
    var cached := cache.Get(k, turn.at);
    if cached.Some? {
      return Reply(200, cached.value, HIT, None), None;
    }
    assert end == Played(cache.cfg, st, k, Missed, script, 1, cache.store);
    turn := script(1);
    cache.Resume(turn.store);
    var negative := cache.GetNegative(k, turn.at);
    if negative.Some? {
      return Reply(negative.value.1, negative.value.0, HIT, None), None;
    }
    assert end == Played(cache.cfg, st, k, Unread, script, 2, cache.store);
    turn := script(2);
    cache.Resume(turn.store);
    var storedEtag := cache.GetEtag(k, turn.at);
    assert end == Played(cache.cfg, st, k, Ready(false, storedEtag), script, 3, cache.store);
    turn := script(3);
    cache.Resume(turn.store);
    var resp, isLeader := turn.answer(storedEtag), turn.leads;
    ghost var f := Coalesced(turn, false, storedEtag);
    var i := 4;
    if resp.notModified {
      assert end == Played(cache.cfg, st, k, Reviving(f, isLeader), script, 4, cache.store);
      turn := script(4);
      cache.Resume(turn.store);
      var staleBody := cache.GetStale(k, turn.at);
      if staleBody.Some? {
        reply := RestoreStale(cache, st, k, script, resp, isLeader, storedEtag, staleBody.value, f, end);
        return;
      }
      assert end == Played(cache.cfg, st, k, Ready(true, None), script, 5, cache.store);
      turn := script(5);
      cache.Resume(turn.store);
      resp, isLeader := turn.answer(None), turn.leads;
      f, i := Coalesced(turn, true, None), 6;
    }
    reply, archives := Conclude(cache, st, k, script, i, resp, isLeader, f, end);
  }

  /** After a 304 whose body is still there (app/proxy.py:160-174). */
  method RestoreStale(cache: CacheClient, st: Settings, k: Key, script: Script, resp: Resp, isLeader: bool,
                      storedEtag: Option<string>, staleBody: Bytes, ghost f: Fetch, ghost end: (Phase, Store))
    returns (reply: Reply)
    requires f.resp == resp && (isLeader ==> f.sent == storedEtag)
    requires end == if resp.maxAge.Some? then
                      Played(cache.cfg, st, k, Revive(f, isLeader, staleBody, resp.maxAge.value), script, 5,
                             cache.store)
                    else Played(cache.cfg, st, k, Held(f, isLeader, staleBody), script, 5, cache.store)
    modifies cache
    ensures EndsLike(end, reply, None, cache.store)
  {
    var ttl, i := 0, 5;
    if resp.maxAge.Some? {
      ttl := resp.maxAge.value;
    } else {
      var turn := script(5);
      cache.Resume(turn.store);
      ttl := Breaker.Or(cache.GetTtl(k, turn.at), 300);
      i := 6;
    }
    assert end == Played(cache.cfg, st, k, Revive(f, isLeader, staleBody, ttl), script, i, cache.store);
    if isLeader {
      var etag := if Truthy(resp.etag) then resp.etag else storedEtag;
      WriteEnds(cache.cfg, st, k, Putting(staleBody, ttl, etag, false), f, script, i, cache.store);
      var turn := script(i);
      cache.Resume(turn.store);
      var ok := cache.Set(k, SetArgs(staleBody, ttl, etag, StaleTtlFor(st, staleBody), turn.at));
      if !ok {
        return Raised;
      }
    }
    reply := Reply(200, staleBody, MISS, None);
  }

  /** With a response that settles the request (app/proxy.py:186-248). */
  method Conclude(cache: CacheClient, st: Settings, k: Key, script: Script, i: nat, resp: Resp, isLeader: bool,
                  ghost f: Fetch, ghost end: (Phase, Store))
    returns (reply: Reply, archives: Option<Bytes>)
    requires f.resp == resp && (f.call.again || !resp.notModified)
    requires end == Played(cache.cfg, st, k, Settle(st, f, isLeader), script, i, cache.store)
    modifies cache
    ensures EndsLike(end, reply, archives, cache.store)
  {
    archives := None;
    var turn := script(i);
    if resp.status == 200 {
      if isLeader {
        var ttl := Breaker.Or(resp.maxAge, 300);
        WriteEnds(cache.cfg, st, k, Putting(resp.body, ttl, resp.etag, true), f, script, i, cache.store);
        cache.Resume(turn.store);
        var ok := cache.Set(k, SetArgs(resp.body, ttl, resp.etag, StaleTtlFor(st, resp.body), turn.at));
        if !ok {
          return Raised, None;
        }
        archives := Some(resp.body);
      }
      return Reply(200, resp.body, MISS, None), archives;
    }
    if resp.status == 420 || resp.status >= 500 {
      cache.Resume(turn.store);
      var staleBody := cache.GetStale(k, turn.at);
      if staleBody.Some? {
        return Reply(200, staleBody.value, STALE, None), None;
      }
      if turn.fb.archived.Some? && turn.fb.archived.value != [] {
        return Reply(200, turn.fb.archived.value, ARCHIVE_FALLBACK, None), None;
      }
      return Reply(resp.status, turn.fb.envelope, ERROR, None), None;
    }
    if 300 <= resp.status < 400 {
      return Reply(resp.status, resp.body, MISS, resp.location), None;
    }
    if 400 <= resp.status < 500 && resp.status != 429 {
      var negTtl := if resp.maxAge.Some? then resp.maxAge.value else st.negativeCacheTtlSeconds;
      if negTtl > 0 {
        WriteEnds(cache.cfg, st, k, Refusing(resp.body, resp.status, negTtl), f, script, i, cache.store);
        cache.Resume(turn.store);
        cache.SetNegative(k, resp.body, resp.status, negTtl, turn.at);
      }
    }
    reply := Reply(resp.status, resp.body, MISS, None);
  }
}
