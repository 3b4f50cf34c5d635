/**
 One fetch: breaker, first request, pagination fan-out and merge
 (app/esi_client.py:107-285).

 Pages 2..N are fetched by concurrent tasks whose requests may interleave in any order,
 retries included.  A failed page makes the whole fetch fail at once, but the other
 tasks are not cancelled and still send their requests.
 */
module Fetch {
  import opened Common
  import opened Esi
  import Breaker
  import Pacer
  import Retry

  /** The upstream as one fetch sees it: replies and timings, attempt by attempt. */
  datatype World = World(
    first: nat -> Reply,
    firstTiming: nat -> Retry.Timing,
    pages: nat -> nat -> Reply,          // page number, attempt
    pageTiming: nat -> nat -> Retry.Timing)

  datatype Fetched =
    | Fetched(resp: ESIResponse<Doc>, sent: nat)
    | Crashed                             // the retry loop's own assertion failed

  // ------------------------------------------------------------------ one page

  /** The items of a page, if its final reply is good: a 2xx list that agrees on the page count. */
  function PageItems(reply: Reply, total: int): Option<seq<string>> {
    match reply
    case Got(HttpResponse(status, headers, Items(items))) =>
      if 200 <= status < 300 && (headers.xPages == None || headers.xPages == Some(total)) then Some(items) else None
    case _ => None
  }

  ghost function Page(cfg: Retry.Config, w: World, total: int, page: nat): Option<seq<string>> {
    var a := Retry.Outcome(cfg, w.pages(page));
    if a.Attempted? then PageItems(a.reply, total) else None
  }

  // ------------------------------------------------------- what a merge should be

  ghost predicate AllGood(cfg: Retry.Config, w: World, total: int) {
    forall p: nat :: 2 <= p <= total ==> Page(cfg, w, total, p).Some?
  }

  /** Pages 2..n, one after the other in page order. */
  ghost function Concat(cfg: Retry.Config, w: World, total: int, n: nat): seq<string>
    requires AllGood(cfg, w, total) && n <= total
  {
    if n < 2 then [] else Concat(cfg, w, total, n - 1) + Page(cfg, w, total, n).value
  }

  /** Page 1 followed by all other pages in order, or nothing at all. */
  ghost function Merged(cfg: Retry.Config, w: World, page1: Doc, total: int): Option<seq<string>>
    requires total >= 0
  {
    if page1.Items? && AllGood(cfg, w, total) then Some(page1.items + Concat(cfg, w, total, total)) else None
  }

  // ------------------------------------------------------------------ the fan-out

  /** How many requests the task of a page sends. */
  ghost function Uses(cfg: Retry.Config, w: World, page: nat): nat {
    var a := Retry.Outcome(cfg, w.pages(page));
    if a.Attempted? then a.used else 0
  }

  /** `turns` says whose request comes next: each page as often as its task sends one, in any order. */
  ghost predicate Interleaves(cfg: Retry.Config, w: World, turns: seq<nat>, total: int) {
    && (forall i :: 0 <= i < |turns| ==> 2 <= turns[i] <= total)
    && (forall p: nat :: 2 <= p <= total ==> multiset(turns)[p] == Uses(cfg, w, p))
  }

  /** Attempt `a` of a page is its last exactly if it is not worth a retry or the limit is reached. */
  lemma LastAttempt(cfg: Retry.Config, w: World, page: nat, a: nat)
    requires cfg.maxRetries >= 0 && a < Uses(cfg, w, page)
    ensures a + 1 == Uses(cfg, w, page) <==> !Retry.Retriable(w.pages(page)(a)) || a >= cfg.maxRetries
    ensures a + 1 == Uses(cfg, w, page) ==> w.pages(page)(a) == Retry.Outcome(cfg, w.pages(page)).reply
  {
    Retry.RetryBounds(cfg, w.pages(page));
  }

  lemma OneMoreTurn(turns: seq<nat>, i: nat, p: nat)
    requires i < |turns|
    ensures multiset(turns[..i + 1])[p] == multiset(turns[..i])[p] + if turns[i] == p then 1 else 0
    ensures multiset(turns[..i + 1])[p] <= multiset(turns)[p]
  {
    assert turns[..i + 1] == turns[..i] + [turns[i]];
    assert turns == turns[..i + 1] + turns[i + 1..];
    assert multiset(turns) == multiset(turns[..i + 1]) + multiset(turns[i + 1..]);
  }

  /** A multiset over pages 2..total with at most c of each. */
  lemma {:induction false} AtMost(ms: multiset<nat>, total: nat, c: nat)
    requires forall p: nat :: ms[p] <= if 2 <= p <= total then c else 0
    requires total >= 1
    ensures |ms| <= (total - 1) * c
    decreases total
  {
    if total == 1 {
      assert ms == multiset{};
    } else {
      var rest := ms[total := 0];
      assert |ms| == |rest| + ms[total];
      AtMost(rest, total - 1, c);
      assert (total - 1) * c == (total - 2) * c + c;
    }
  }

  /** No more requests than pages times attempts. */
  lemma TurnsBounded(cfg: Retry.Config, w: World, turns: seq<nat>, total: int)
    requires cfg.maxRetries >= 0 && total > 1 && Interleaves(cfg, w, turns, total)
    ensures |turns| <= (total - 1) * (cfg.maxRetries + 1)
  {
    forall p: nat ensures multiset(turns)[p] <= if 2 <= p <= total then cfg.maxRetries + 1 else 0 {
      if 2 <= p <= total {
        Retry.RetryBounds(cfg, w.pages(p));
      } else {
        assert p !in turns;
      }
    }
    AtMost(multiset(turns), total, cfg.maxRetries + 1);
  }

  /** A page after so many attempts: once it has had its last, its slot is filled. */
  ghost predicate SlotFits(cfg: Retry.Config, w: World, total: int, page: nat, tries: nat, slot: Option<seq<string>>) {
    tries == Uses(cfg, w, page) ==> slot == Page(cfg, w, total, page)
  }

  /** After some turns: how often each page has tried, and the slots of those that are through. */
  ghost predicate Underway(cfg: Retry.Config, w: World, total: int, done: seq<nat>, tried: seq<nat>,
                           slots: seq<Option<seq<string>>>) {
    && |tried| == |slots| == total - 1
    && (forall i :: 0 <= i < |tried| ==> tried[i] == multiset(done)[i + 2])
    && (forall i :: 0 <= i < |slots| ==> SlotFits(cfg, w, total, i + 2, tried[i], slots[i]))
  }

  lemma TurnTaken(cfg: Retry.Config, w: World, total: int, turns: seq<nat>, i: nat, tried: seq<nat>,
                  slots: seq<Option<seq<string>>>, slots': seq<Option<seq<string>>>)
    requires cfg.maxRetries >= 0 && total > 1 && i < |turns| && Interleaves(cfg, w, turns, total)
    requires Underway(cfg, w, total, turns[..i], tried, slots)
    requires var page := turns[i];
             slots' == if tried[page - 2] + 1 == Uses(cfg, w, page) then slots[page - 2 := Page(cfg, w, total, page)]
                       else slots
    ensures Underway(cfg, w, total, turns[..i + 1], tried[turns[i] - 2 := tried[turns[i] - 2] + 1], slots')
  {
    var tried' := tried[turns[i] - 2 := tried[turns[i] - 2] + 1];
    forall j | 0 <= j < |tried'| ensures tried'[j] == multiset(turns[..i + 1])[j + 2] {
      OneMoreTurn(turns, i, j + 2);
    }
    forall j | 0 <= j < |slots'| ensures SlotFits(cfg, w, total, j + 2, tried'[j], slots'[j]) {
      assert SlotFits(cfg, w, total, j + 2, tried[j], slots[j]);
    }
  }

  /** A turn: the attempt, and the slot if it was the last. */
  lemma TurnFits(cfg: Retry.Config, w: World, total: int, turns: seq<nat>, i: nat, tried: seq<nat>,
                 slots: seq<Option<seq<string>>>, slots': seq<Option<seq<string>>>)
    requires cfg.maxRetries >= 0 && total > 1 && i < |turns| && Interleaves(cfg, w, turns, total)
    requires Underway(cfg, w, total, turns[..i], tried, slots)
    requires var page := turns[i];
             var attempt := tried[page - 2];
             var reply := w.pages(page)(attempt);
             slots' == if !Retry.Retriable(reply) || attempt >= cfg.maxRetries
                       then slots[page - 2 := PageItems(reply, total)]
                       else slots
    ensures Underway(cfg, w, total, turns[..i + 1], tried[turns[i] - 2 := tried[turns[i] - 2] + 1], slots')
  {
    TurnLeft(cfg, w, total, turns, i, tried, slots);
    LastAttempt(cfg, w, turns[i], tried[turns[i] - 2]);
    TurnTaken(cfg, w, total, turns, i, tried, slots, slots');
  }

  /** Pacer and breaker after so many releases. */
  ghost predicate Going(pacer: Pacer.TokenBucket, breaker: Breaker.CircuitBreaker,
                        released: nat, start: real, now: real)
    reads pacer, breaker
  {
    && pacer.Valid() && breaker.Valid() && pacer.updated <= now && start <= now
    && (pacer.rate > 0.0 ==> |pacer.log| == released)
  }

  method PageAttempt(pacer: Pacer.TokenBucket, breaker: Breaker.CircuitBreaker, reply: Reply, t: Retry.Timing,
                     ghost released: nat, ghost start: real, at: real)
    returns (now: real)
    requires Going(pacer, breaker, released, start, at)
    modifies pacer, breaker
    ensures Going(pacer, breaker, released + 1, start, now)
  {
    now := Retry.Attempt(pacer, breaker, reply, t, at);
  }

  /** One request of the page whose turn it is. */
  method TakeTurn(cfg: Retry.Config, pacer: Pacer.TokenBucket, breaker: Breaker.CircuitBreaker,
                  w: World, total: int, turns: seq<nat>, i: nat, tried: seq<nat>, slots: seq<Option<seq<string>>>,
                  ghost released: nat, ghost start: real, at: real)
    returns (tried': seq<nat>, slots': seq<Option<seq<string>>>, now: real)
    requires cfg.maxRetries >= 0 && total > 1 && i < |turns| && Interleaves(cfg, w, turns, total)
    requires Underway(cfg, w, total, turns[..i], tried, slots) && Going(pacer, breaker, released, start, at)
    modifies pacer, breaker
    ensures Underway(cfg, w, total, turns[..i + 1], tried', slots') && Going(pacer, breaker, released + 1, start, now)
  {
    var page := turns[i];
    var attempt := tried[page - 2];
    var reply := w.pages(page)(attempt);
    now := PageAttempt(pacer, breaker, reply, w.pageTiming(page)(attempt), released, start, at);
    slots' := slots;
    if !Retry.Retriable(reply) || attempt >= cfg.maxRetries {
      slots' := slots[page - 2 := PageItems(reply, total)];
    }
    TurnFits(cfg, w, total, turns, i, tried, slots, slots');
    tried' := tried[page - 2 := attempt + 1];
  }

  /** Runs the page tasks, request by request, in the given order; each result lands in the slot of its page. */
  method GatherPages(cfg: Retry.Config, pacer: Pacer.TokenBucket, breaker: Breaker.CircuitBreaker,
                     w: World, total: int, turns: seq<nat>, start: real)
    returns (slots: seq<Option<seq<string>>>, now: real)
    requires cfg.maxRetries >= 0 && total > 1 && Interleaves(cfg, w, turns, total)
    requires pacer.Valid() && breaker.Valid() && pacer.updated <= start
    modifies pacer, breaker
    ensures |slots| == total - 1
    ensures forall p: nat :: 2 <= p <= total ==> slots[p - 2] == Page(cfg, w, total, p)
    ensures Going(pacer, breaker, old(|pacer.log|) + |turns|, start, now)
  {
    slots := seq(total - 1, _ => None);
    var tried: seq<nat> := seq(total - 1, _ => 0);
    now := start;
    ghost var released := |pacer.log|;
    assert turns[..0] == [];
    NoneYet(cfg, w, total, tried, slots);
    for i := 0 to |turns|
      invariant Underway(cfg, w, total, turns[..i], tried, slots)
      invariant Going(pacer, breaker, released + i, start, now)
    {
      tried, slots, now := TakeTurn(cfg, pacer, breaker, w, total, turns, i, tried, slots, released + i, start, now);
    }
    assert turns[..|turns|] == turns;
    AllThrough(cfg, w, total, turns, tried, slots);
  }

  /** When all turns are over, every page is through. */
  lemma AllThrough(cfg: Retry.Config, w: World, total: int, turns: seq<nat>, tried: seq<nat>,
                   slots: seq<Option<seq<string>>>)
    requires Interleaves(cfg, w, turns, total) && Underway(cfg, w, total, turns, tried, slots)
    ensures forall p: nat :: 2 <= p <= total ==> slots[p - 2] == Page(cfg, w, total, p)
  {
    forall p: nat | 2 <= p <= total ensures slots[p - 2] == Page(cfg, w, total, p) {
      assert tried[p - 2] == multiset(turns)[p];
      assert SlotFits(cfg, w, total, p, tried[p - 2], slots[p - 2]);
    }
  }

  lemma NoneYet(cfg: Retry.Config, w: World, total: int, tried: seq<nat>, slots: seq<Option<seq<string>>>)
    requires cfg.maxRetries >= 0 && total > 1 && |tried| == |slots| == total - 1
    requires forall i :: 0 <= i < |tried| ==> tried[i] == 0
    ensures Underway(cfg, w, total, [], tried, slots)
  {
    forall i | 0 <= i < |slots| ensures SlotFits(cfg, w, total, i + 2, tried[i], slots[i]) {
      Retry.RetryBounds(cfg, w.pages(i + 2));
    }
  }

  /** Whose turn it is has not had its last. */
  lemma TurnLeft(cfg: Retry.Config, w: World, total: int, turns: seq<nat>, i: nat, tried: seq<nat>,
                 slots: seq<Option<seq<string>>>)
    requires i < |turns| && Interleaves(cfg, w, turns, total) && Underway(cfg, w, total, turns[..i], tried, slots)
    ensures tried[turns[i] - 2] < Uses(cfg, w, turns[i])
  {
    OneMoreTurn(turns, i, turns[i]);
    assert tried[turns[i] - 2] == multiset(turns[..i])[turns[i]];
  }

  /** Merges in page order, whatever the order of completion; any bad page spoils the whole. */
  method FetchAllPages(cfg: Retry.Config, pacer: Pacer.TokenBucket, breaker: Breaker.CircuitBreaker,
                       w: World, page1: Doc, total: int, turns: seq<nat>, start: real)
    returns (merged: Option<seq<string>>, sent: nat, now: real)
    requires cfg.maxRetries >= 0 && total > 1 && Interleaves(cfg, w, turns, total)
    requires pacer.Valid() && breaker.Valid() && pacer.updated <= start
    modifies pacer, breaker
    ensures merged == Merged(cfg, w, page1, total)
    ensures sent <= (total - 1) * (cfg.maxRetries + 1)
    ensures pacer.Valid() && breaker.Valid() && pacer.updated <= now && start <= now
  {
    var slots;
    slots, now := GatherPages(cfg, pacer, breaker, w, total, turns, start);
    sent := |turns|;
    TurnsBounded(cfg, w, turns, total);
    if i :| 0 <= i < |slots| && slots[i].None? {
      assert Page(cfg, w, total, i + 2).None?;
      return None, sent, now;
    }
    assert AllGood(cfg, w, total);
    if !page1.Items? {
      return None, sent, now;
    }
    var all := page1.items;
    for p := 2 to total + 1
      invariant all == page1.items + Concat(cfg, w, total, p - 1)
    {
      all := all + slots[p - 2].value;
    }
    merged := Some(all);
  }

  // --------------------------------------------------------------------- one fetch

  function Failure(status: int, pages: int): ESIResponse<Doc> {
    ESIResponse(status, OtherJson("error"), None, None, false, pages, None)
  }

  function PageCount(h: Headers): int {
    Breaker.Or(h.xPages, 1)
  }

  /** What the caller gets for a final reply to the first request, pagination aside. */
  function Unpaged(resp: HttpResponse, sentEtag: Option<string>): ESIResponse<Doc> {
    var h := resp.headers;
    if resp.status == 304 then
      ESIResponse(304, NotJson(""), sentEtag, h.maxAge, true, 1, None)
    else
      ESIResponse(resp.status, resp.content, h.etag, h.maxAge, false, 1, h.location)
  }

  /** The whole fetch as a function of the replies: no completion order appears in it. */
  ghost function FetchSpec(cfg: Retry.Config, blocked: bool, isGet: bool, etag: Option<string>, w: World)
    : Option<ESIResponse<Doc>>
  {
    if blocked then Some(Failure(503, 1))
    else
      match Retry.Outcome(cfg, w.first)
      case AssertionFailed => None
      case Attempted(RequestError(_), _, _) => Some(Failure(503, 1))
      case Attempted(Got(resp), _, _) =>
        var pages := PageCount(resp.headers);
        if resp.status != 200 || !isGet then Some(Unpaged(resp, etag))
        else if pages <= 1 then
          Some(Unpaged(resp, etag).(
            etag := if pages == 1 then resp.headers.etag else None, pageCount := pages, location := None))
        else
          match Merged(cfg, w, resp.content, pages)
          case None => Some(Failure(500, pages))
          case Some(items) =>
            Some(ESIResponse(200, Items(items), None, resp.headers.maxAge, false, pages, None))
  }

  method FetchOne(cfg: Retry.Config, pacer: Pacer.TokenBucket, breaker: Breaker.CircuitBreaker,
                  isGet: bool, etag: Option<string>, w: World, turns: int -> seq<nat>, start: real)
    returns (result: Fetched, now: real)
    requires cfg.maxRetries >= 0 ==> forall n :: n > 1 ==> Interleaves(cfg, w, turns(n), n)
    requires pacer.Valid() && breaker.Valid() && pacer.updated <= start && 0.0 <= start
    modifies pacer, breaker
    ensures pacer.Valid() && breaker.Valid() && pacer.updated <= now && start <= now
    ensures var spec := FetchSpec(cfg, old(breaker.Blocked(start)), isGet, etag, w);
            if spec.None? then result.Crashed?
            else result.Fetched? && result.resp == spec.value
    ensures (exists i :: 0 <= i < |old(breaker.trips)| &&
                         start < old(breaker.trips)[i].at + old(breaker.trips)[i].length) ==>
              && result.Fetched? && result.sent == 0 && result.resp.status == 503
              && pacer.log == old(pacer.log) && breaker.trips == old(breaker.trips)
    ensures result.Fetched? && cfg.maxRetries >= 0 ==>
              result.sent <= Pages(result.resp) * (cfg.maxRetries + 1)
  {
    now := start;
    var blocked := breaker.BudgetBlocked(start);
    if blocked {
      return Fetched(Failure(503, 1), 0), now;
    }
    Retry.RetryBounds(cfg, w.first);
    var outcome;
    ghost var times;
    outcome, now, times := Retry.RequestWithRetries(cfg, pacer, breaker, w.first, w.firstTiming, start);
    if outcome.AssertionFailed? {
      return Crashed, now;
    }
    var sent := outcome.used;
    if outcome.reply.RequestError? {
      return Fetched(Failure(503, 1), sent), now;
    }
    var resp := outcome.reply.resp;
    if resp.status == 304 || resp.status != 200 || !isGet {
      return Fetched(Unpaged(resp, etag), sent), now;
    }
    var pages := PageCount(resp.headers);
    var body := resp.content;
    if pages > 1 {
      var merged, more;
      merged, more, now := FetchAllPages(cfg, pacer, breaker, w, resp.content, pages, turns(pages), now);
      assert pages * (cfg.maxRetries + 1) == (pages - 1) * (cfg.maxRetries + 1) + (cfg.maxRetries + 1);
      sent := sent + more;
      if merged.None? {
        return Fetched(Failure(500, pages), sent), now;
      }
      body := Items(merged.value);
    }
    result := Fetched(
      ESIResponse(200, body, if pages == 1 then resp.headers.etag else None, resp.headers.maxAge, false, pages, None),
      sent);
  }

  function Pages(resp: ESIResponse<Doc>): int {
    if resp.pageCount > 1 then resp.pageCount else 1
  }

  /**
   The upstream traffic of one dispatch that leads its fetches (app/proxy.py:151-184): a
   conditional fetch and, after a 304 without a stale copy, an unconditional one.  A 304
   costs one retried request, so P pages cost at most (1 + P) of them in all.
   */
  method FetchForDispatch(cfg: Retry.Config, pacer: Pacer.TokenBucket, breaker: Breaker.CircuitBreaker,
                          isGet: bool, etag: Option<string>, staleLive: bool, w: World, again: World,
                          turns: int -> seq<nat>, turnsAgain: int -> seq<nat>, start: real)
    returns (result: Fetched, sent: nat)
    requires cfg.maxRetries >= 0
    requires forall n :: n > 1 ==> Interleaves(cfg, w, turns(n), n) && Interleaves(cfg, again, turnsAgain(n), n)
    requires pacer.Valid() && breaker.Valid() && pacer.updated <= start && 0.0 <= start
    modifies pacer, breaker
    ensures pacer.Valid() && breaker.Valid()
    ensures result.Fetched? ==> sent <= (1 + Pages(result.resp)) * (cfg.maxRetries + 1)
    ensures var first := FetchSpec(cfg, old(breaker.Blocked(start)), isGet, etag, w);
            first.Some? ==>
              && result.Fetched?
              && if first.value.notModified && !staleLive then
                   exists blocked :: FetchSpec(cfg, blocked, isGet, None, again) == Some(result.resp)
                 else result.resp == first.value
  {
    var now;
    result, now := FetchOne(cfg, pacer, breaker, isGet, etag, w, turns, start);
    sent := if result.Fetched? then result.sent else 0;
    if result.Fetched? {
      var p := Pages(result.resp);
      assert (1 + p) * (cfg.maxRetries + 1) == p * (cfg.maxRetries + 1) + (cfg.maxRetries + 1);
    }
    if result.Fetched? && result.resp.notModified && !staleLive {
      result, now := FetchOne(cfg, pacer, breaker, isGet, None, again, turnsAgain, now);
      if result.Fetched? {
        var p := Pages(result.resp);
        assert (1 + p) * (cfg.maxRetries + 1) == p * (cfg.maxRetries + 1) + (cfg.maxRetries + 1);
        sent := sent + result.sent;
      }
    }
  }

  // -------------------------------------------------------------------- theorems

  /** Where the items of page `p` start in the merged body. */
  ghost function Offset(cfg: Retry.Config, w: World, page1: Doc, total: int, p: nat): nat
    requires AllGood(cfg, w, total) && page1.Items? && 2 <= p <= total
  {
    |page1.items| + |Concat(cfg, w, total, p - 1)|
  }

  lemma {:induction false} ConcatPrefix(cfg: Retry.Config, w: World, total: int, m: nat, n: nat)
    requires AllGood(cfg, w, total) && m <= n <= total
    ensures Concat(cfg, w, total, m) <= Concat(cfg, w, total, n)
  {
    if m < n { ConcatPrefix(cfg, w, total, m, n - 1); }
  }

  /** A merged body holds page 1 in front and every other page whole, in page order, and no more. */
  lemma MergedPages(cfg: Retry.Config, w: World, page1: Doc, total: int, p: nat)
    requires 2 <= p <= total && Merged(cfg, w, page1, total).Some?
    ensures var all := Merged(cfg, w, page1, total).value;
            var page := Page(cfg, w, total, p).value;
            var at := Offset(cfg, w, page1, total, p);
            && page1.items <= all
            && at + |page| <= |all| && all[at..at + |page|] == page
            && (if p < total then Offset(cfg, w, page1, total, p + 1) == at + |page| else |all| == at + |page|)
  {
    var whole := Concat(cfg, w, total, total);
    ConcatPrefix(cfg, w, total, p, total);
    var upTo, page := Concat(cfg, w, total, p - 1), Page(cfg, w, total, p).value;
    assert Concat(cfg, w, total, p) == upTo + page;
    assert whole[|upTo|..|upTo| + |page|] == page;
    var all := page1.items + whole;
    assert all[|page1.items| + |upTo|..|page1.items| + |upTo| + |page|] == whole[|upTo|..|upTo| + |page|];
  }

  /** The final reply of a page task. */
  ghost function FinalReply(cfg: Retry.Config, w: World, p: nat): Option<Reply> {
    var a := Retry.Outcome(cfg, w.pages(p));
    if a.Attempted? then Some(a.reply) else None
  }

  /** A reply that can be merged: a 2xx list of items, agreeing with page 1 on the page count or silent about it. */
  ghost predicate Mergeable(reply: Option<Reply>, n: int) {
    && reply.Some? && reply.value.Got?
    && var r := reply.value.resp;
       200 <= r.status <= 299 && r.content.Items? && (r.headers.xPages.Some? ==> r.headers.xPages.value == n)
  }

  ghost function ItemsOf(reply: Option<Reply>): seq<string> {
    if reply.Some? && reply.value.Got? && reply.value.resp.content.Items? then reply.value.resp.content.items else []
  }

  /** A body is page 1 and then, from page 2 to page n, the items of each page's final reply. */
  ghost predicate Holds(cfg: Retry.Config, w: World, page1: seq<string>, n: nat, body: seq<string>) {
    exists starts: seq<nat> :: Placed(cfg, w, page1, n, body, starts)
  }

  /** `starts[p]` is where page p begins, one page right after the other. */
  ghost predicate Placed(cfg: Retry.Config, w: World, page1: seq<string>, n: nat, body: seq<string>, starts: seq<nat>) {
    && |starts| == n + 2 && n >= 1 && starts[2] == |page1| && page1 <= body && starts[n + 1] == |body|
    && forall p: nat {:trigger starts[p]} :: 2 <= p <= n ==>
         var items := ItemsOf(FinalReply(cfg, w, p));
         starts[p] + |items| <= |body| && body[starts[p]..starts[p] + |items|] == items
         && starts[p + 1] == starts[p] + |items|
  }

  lemma MergedPlaced(cfg: Retry.Config, w: World, page1: Doc, n: nat)
    requires n >= 2 && Merged(cfg, w, page1, n).Some?
    requires forall p: nat :: 2 <= p <= n ==> Mergeable(FinalReply(cfg, w, p), n)
    ensures Holds(cfg, w, page1.items, n, Merged(cfg, w, page1, n).value)
  {
    var all := Merged(cfg, w, page1, n).value;
    var starts: seq<nat> := seq(n + 2, p requires 0 <= p < n + 2 =>
      if p < 2 then 0 else if p <= n then Offset(cfg, w, page1, n, p) else |all|);
    forall p: nat {:trigger starts[p]} | 2 <= p <= n
      ensures var items := ItemsOf(FinalReply(cfg, w, p));
              starts[p] + |items| <= |all| && all[starts[p]..starts[p] + |items|] == items
              && starts[p + 1] == starts[p] + |items| {
      MergedPages(cfg, w, page1, n, p);
      assert Page(cfg, w, n, p).value == ItemsOf(FinalReply(cfg, w, p));
    }
    MergedPages(cfg, w, page1, n, 2);
    assert Placed(cfg, w, page1.items, n, all, starts);
  }

  lemma PageIffMergeable(cfg: Retry.Config, w: World, n: int, p: nat)
    ensures Page(cfg, w, n, p).Some? <==> Mergeable(FinalReply(cfg, w, p), n)
  {
  }

  /**
   All or nothing: a paginated 200 answers 200 exactly when page 1 is a list and the
   final reply of every other page is a 2xx list agreeing on the page count, and then
   its body holds every page whole, in page order; otherwise it answers 500 without any
   items.  A merge never carries an ETag.
   */
  lemma PaginationAllOrNothing(cfg: Retry.Config, etag: Option<string>, w: World)
    requires Retry.Outcome(cfg, w.first).Attempted? && Retry.Outcome(cfg, w.first).reply.Got?
    requires var r := Retry.Outcome(cfg, w.first).reply.resp;
             r.status == 200 && r.headers.xPages.Some? && r.headers.xPages.value > 1
    ensures var r := Retry.Outcome(cfg, w.first).reply.resp;
            var n := r.headers.xPages.value;
            var spec := FetchSpec(cfg, false, true, etag, w);
            && spec.Some? && spec.value.etag == None && spec.value.pageCount == n && !spec.value.notModified
            && (spec.value.status == 200 <==>
                  r.content.Items? && forall p: nat :: 2 <= p <= n ==> Mergeable(FinalReply(cfg, w, p), n))
            && (spec.value.status == 200 ==>
                  && spec.value.body.Items? && spec.value.maxAge == r.headers.maxAge
                  && Holds(cfg, w, r.content.items, n, spec.value.body.items))
            && (spec.value.status != 200 ==> spec.value.status == 500 && !spec.value.body.Items?)
  {
    var r := Retry.Outcome(cfg, w.first).reply.resp;
    var n := r.headers.xPages.value;
    forall p: nat ensures Page(cfg, w, n, p).Some? <==> Mergeable(FinalReply(cfg, w, p), n) {
      PageIffMergeable(cfg, w, n, p);
    }
    if Merged(cfg, w, r.content, n).Some? {
      MergedPlaced(cfg, w, r.content, n);
    }
  }

  /** Everything but a paginated 200: what the first request's final reply makes of the fetch. */
  lemma UnpagedAnswers(cfg: Retry.Config, isGet: bool, etag: Option<string>, w: World)
    requires Retry.Outcome(cfg, w.first).Attempted?
    ensures var reply, spec := Retry.Outcome(cfg, w.first).reply, FetchSpec(cfg, false, isGet, etag, w);
            && spec.Some?
            && (reply.RequestError? ==>
                  spec.value.status == 503 && spec.value.etag == None && spec.value.maxAge == None
                  && !spec.value.notModified && spec.value.pageCount == 1)
            && (reply.Got? ==> UnpagedLike(reply.resp, isGet, etag, spec.value))
  {
  }

  /** A 304 keeps the ETag that was sent; anything else but a paginated 200 is passed on with its own headers. */
  ghost predicate UnpagedLike(resp: HttpResponse, isGet: bool, sent: Option<string>, r: ESIResponse<Doc>) {
    var h := resp.headers;
    && (r.notModified <==> resp.status == 304)
    && (resp.status == 304 ==> r.status == 304 && r.etag == sent && r.maxAge == h.maxAge && r.pageCount == 1)
    && (resp.status != 304 && (resp.status != 200 || !isGet) ==>
          && r.status == resp.status && r.body == resp.content && r.etag == h.etag && r.maxAge == h.maxAge
          && r.location == h.location && r.pageCount == 1)
    && (resp.status == 200 && isGet && (h.xPages.Some? ==> h.xPages.value in {0, 1}) ==>
          r.status == 200 && r.body == resp.content && r.etag == h.etag && r.maxAge == h.maxAge && r.pageCount == 1)
    && (resp.status == 200 && isGet && h.xPages.Some? && h.xPages.value < 0 ==>
          r.status == 200 && r.body == resp.content && r.etag == None && r.maxAge == h.maxAge)
  }

  /** An ETag handed on with a GET 200 validates the whole body: there was only one page. */
  lemma EtagMeansSinglePage(cfg: Retry.Config, etag: Option<string>, w: World)
    requires var spec := FetchSpec(cfg, false, true, etag, w);
             spec.Some? && spec.value.status == 200 && spec.value.etag.Some?
    ensures var a := Retry.Outcome(cfg, w.first);
            && a.Attempted? && a.reply.Got? && PageCount(a.reply.resp.headers) == 1
            && FetchSpec(cfg, false, true, etag, w).value.body == a.reply.resp.content
  {
  }
}
