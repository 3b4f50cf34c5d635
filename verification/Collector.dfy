/**
 The collector's fetch-and-store step (app/collector.py:30-82, 226-237): one response
 warms the cache under its own path and under alias version prefixes, and is archived
 once, under its own path.
 */
module Collector {
  import opened Common
  import opened Cache
  import opened Tables
  import opened Deltas
  import opened Archive
  import Breaker
  import Dispatch

  // ------------------------------------------------------------------ path aliases

  /** The first slash at or after i, or the end. */
  function Slash(s: string, i: nat): (j: nat)
    requires i <= |s|
    ensures i <= j <= |s| && (j < |s| ==> s[j] == '/')
    ensures forall k :: i <= k < j ==> s[k] != '/'
    decreases |s| - i
  {
    if i == |s| || s[i] == '/' then i else Slash(s, i + 1)
  }

  function SwapVersion(path: string, version: string): string {
    var a := Slash(path, 0);
    if a == |path| || Slash(path, a + 1) == |path| then path
    else "/" + version + "/" + path[Slash(path, a + 1) + 1..]
  }

  predicate NoSlash(s: string) {
    forall i :: 0 <= i < |s| ==> s[i] != '/'
  }

  lemma SlashIs(s: string, i: nat, j: nat)
    requires i <= j < |s| && s[j] == '/' && forall k :: i <= k < j ==> s[k] != '/'
    ensures Slash(s, i) == j
  {
  }

  /** Where a versioned path "/version/rest" is cut. */
  lemma VersionedCut(version: string, rest: string)
    requires NoSlash(version)
    ensures var p := "/" + version + "/" + rest;
            Slash(p, 0) == 0 && Slash(p, 1) == |version| + 1 && p[Slash(p, 1) + 1..] == rest
  {
    var p := "/" + version + "/" + rest;
    SlashIs(p, 0, 0);
    assert forall k :: 1 <= k < |version| + 1 ==> p[k] == version[k - 1];
    SlashIs(p, 1, |version| + 1);
  }

  /** The version segment is replaced, and a path without one is left alone. */
  lemma SwapReplaces(version: string, rest: string, v: string, plain: string)
    requires NoSlash(version) && NoSlash(plain)
    ensures SwapVersion("/" + version + "/" + rest, v) == "/" + v + "/" + rest
    ensures SwapVersion(plain, v) == plain && SwapVersion("/" + plain, v) == "/" + plain
  {
    VersionedCut(version, rest);
    assert Slash(plain, 0) == |plain|;
    assert forall i :: 0 < i < |"/" + plain| ==> ("/" + plain)[i] == plain[i - 1];
    assert Slash("/" + plain, 1) == |"/" + plain|;
  }

  /** Versions are independent of the rest: the last one put in wins, and the first can be put back. */
  lemma SwapForgets(version: string, rest: string, v: string, w: string)
    requires NoSlash(version) && NoSlash(v)
    ensures var path := "/" + version + "/" + rest;
            && SwapVersion(SwapVersion(path, v), w) == SwapVersion(path, w)
            && SwapVersion(SwapVersion(path, v), version) == path
            && (SwapVersion(path, v) == path <==> v == version)
  {
    VersionedCut(version, rest);
    VersionedCut(v, rest);
    var path, alias := "/" + version + "/" + rest, "/" + v + "/" + rest;
    assert SwapVersion(path, v) == alias;
    if alias == path {
      assert |v| == |version| && v == alias[1..|v| + 1] && version == path[1..|version| + 1];
    }
  }

  // ------------------------------------------------------------------ warming

  datatype Result = Stored | Skipped | ArchiveFailed | CacheRaised

  function ArgsFor(st: Dispatch.Settings, resp: Dispatch.Resp, at: Time): SetArgs {
    Dispatch.ArgsOf(st, Dispatch.Keeping(resp), at)
  }

  /** The paths one response is cached under, its own first. */
  function Warmed(path: string, versions: seq<string>): (paths: seq<string>)
    ensures |paths| > 0 && paths[0] == path
    decreases |versions|
  {
    if versions == [] then [path]
    else
      var before := Warmed(path, versions[..|versions| - 1]);
      var alias := SwapVersion(path, versions[|versions| - 1]);
      if alias == path then before else before + [alias]
  }

  /** A path is warmed exactly if it is the fetched one or an alias of it. */
  lemma {:induction false} WarmedPaths(path: string, versions: seq<string>, p: string)
    ensures p in Warmed(path, versions) <==>
              p == path || exists i :: 0 <= i < |versions| && p == SwapVersion(path, versions[i])
    decreases |versions|
  {
    if versions != [] {
      var n := |versions| - 1;
      WarmedPaths(path, versions[..n], p);
      assert forall i :: 0 <= i < n ==> versions[..n][i] == versions[i];
    }
  }

  /** What is stored under each of them: the fetched body and ETag, for its max-age or else 300 seconds. */
  lemma WarmedWith(st: Dispatch.Settings, resp: Dispatch.Resp, at: Time)
    ensures var a := ArgsFor(st, resp, at);
            && a.body == resp.body && a.etag == resp.etag && a.at == at
            && a.ttl == (if resp.maxAge.Some? && resp.maxAge.value != 0 then resp.maxAge.value else 300)
            && a.staleTtl == if 0 < st.staleCacheMaxBodyBytes < |resp.body| then 0 else st.staleCacheSeconds
  {
  }

  /** The store after warming `paths` one after the other. */
  function AfterWarming(cfg: Config, s: Store, keyFor: string -> Key, paths: seq<string>, st: Dispatch.Settings,
                        resp: Dispatch.Resp, clock: nat -> Time): Store
    decreases |paths|
  {
    if paths == [] then s
    else
      var n := |paths| - 1;
      AfterSet(cfg, AfterWarming(cfg, s, keyFor, paths[..n], st, resp, clock),
               keyFor(paths[n]), ArgsFor(st, resp, clock(n)))
  }

  /** The alias loop, after the canonical key is set. */
  method WarmAliases(st: Dispatch.Settings, cache: CacheClient, keyFor: string -> Key, path: string,
                     versions: seq<string>,
                     resp: Dispatch.Resp, clock: nat -> Time, ghost s: Store)
    requires cache.store == AfterWarming(cache.cfg, s, keyFor, [path], st, resp, clock)
    modifies cache
    ensures cache.store == AfterWarming(cache.cfg, s, keyFor, Warmed(path, versions), st, resp, clock)
  {
    var n := 1;
    assert versions[..0] == [] && Warmed(path, versions[..0]) == [path];
    for i := 0 to |versions|
      invariant n == |Warmed(path, versions[..i])|
      invariant cache.store == AfterWarming(cache.cfg, s, keyFor, Warmed(path, versions[..i]), st, resp, clock)
    {
      assert versions[..i + 1][..i] == versions[..i];
      var alias := SwapVersion(path, versions[i]);
      if alias != path {
        assert Warmed(path, versions[..i + 1])[..n] == Warmed(path, versions[..i]);
        var _ := cache.Set(keyFor(alias), ArgsFor(st, resp, clock(n)));
        n := n + 1;
      }
    }
    assert versions[..|versions|] == versions;
  }

  /** `_fetch_and_store`, once the response is there; `clock` says when each cache write runs. */
  method FetchAndStore(d: Deps, st: Dispatch.Settings, cache: CacheClient, session: Session, keyFor: string -> Key,
                       path: string, versions: seq<string>, resp: Dispatch.Resp, clock: nat -> Time, w: WriteArgs)
    returns (result: Result)
    requires session.db == session.committed && w.payload == resp.body && w.resource.path == path
    modifies cache, session
    ensures resp.status != 200 <==> result == Skipped
    ensures resp.status == 200 && Rejected(ArgsFor(st, resp, 0.0)) <==> result == CacheRaised
    ensures result in {Stored, ArchiveFailed} ==>
              && cache.store ==
                 AfterWarming(cache.cfg, old(cache.store), keyFor, Warmed(path, versions), st, resp, clock)
              && session.db == session.committed == AfterWrite(d, old(session.db), w)
              && (result == Stored <==> WriteSpec(d, old(session.db), w).Some?)
    ensures result in {Skipped, CacheRaised} ==>
              session.db == old(session.db) && session.committed == old(session.committed)
    ensures result == Skipped ==> cache.store == old(cache.store)
  {
    if resp.status != 200 {
      return Skipped;
    }
    ghost var s := cache.store;
    var ok := cache.Set(keyFor(path), ArgsFor(st, resp, clock(0)));
    if !ok {
      return CacheRaised;
    }
    WarmAliases(st, cache, keyFor, path, versions, resp, clock, s);
    ok := WriteSnapshot(d, session, w);
    if !ok {
      session.Rollback();
      return ArchiveFailed;
    }
    result := Stored;
  }

  /** From the last cache write until the first entry expires, every warmed path is a hit with the fetched body. */
  lemma {:induction false} AllWarm(cfg: Config, s: Store, keyFor: string -> Key, paths: seq<string>,
                                   st: Dispatch.Settings,
                                   resp: Dispatch.Resp, clock: nat -> Time, i: nat, t: Time)
    requires RoundTrips(cfg.codec) && Plain(resp.body) && !Rejected(ArgsFor(st, resp, 0.0))
    requires i < |paths| && forall m, n :: 0 <= m <= n < |paths| ==> clock(m) <= clock(n)
    requires clock(|paths| - 1) <= t < clock(0) + Breaker.Or(resp.maxAge, 300) as real
    ensures var body := Live(AfterWarming(cfg, s, keyFor, paths, st, resp, clock).body, keyFor(paths[i]), t);
            body.Some? && DecodeValue(cfg.codec, body.value) == resp.body
    decreases |paths|
  {
    var n := |paths| - 1;
    EncodeReadsBack(cfg, resp.body);
    if keyFor(paths[i]) != keyFor(paths[n]) {
      assert paths[..n][i] == paths[i];
      AllWarm(cfg, s, keyFor, paths[..n], st, resp, clock, i, t);
    }
  }

  /** Every other key is left as it was. */
  lemma {:induction false} OthersUntouched(cfg: Config, s: Store, keyFor: string -> Key, paths: seq<string>,
                                           st: Dispatch.Settings, resp: Dispatch.Resp, clock: nat -> Time, k: Key)
    requires forall i :: 0 <= i < |paths| ==> keyFor(paths[i]) != k
    ensures KeyUntouched(s, AfterWarming(cfg, s, keyFor, paths, st, resp, clock), k)
    decreases |paths|
  {
    if paths != [] {
      var n := |paths| - 1;
      forall i | 0 <= i < n ensures keyFor(paths[..n][i]) != k {
        assert paths[..n][i] == paths[i];
      }
      OthersUntouched(cfg, s, keyFor, paths[..n], st, resp, clock, k);
      SetElsewhere(cfg, AfterWarming(cfg, s, keyFor, paths[..n], st, resp, clock), keyFor(paths[n]),
                   ArgsFor(st, resp, clock(n)), k);
    }
  }
}
