/**
 Cache keys (app/allowlist.py:160-225, app/proxy.py:111-132, app/collector.py:44-66).

 Coalescing and the hot cache hand one request's answer to another request with the
 same key.  That is sound because a key determines everything that is sent upstream.
 Hashing enters only through a function parameter; where a conclusion would need two
 preimages not to collide, the collision is stated as the other alternative.
 */
module CacheKeys {
  import opened Common
  import opened JsonText
  import opened Canonical

  predicate HexChar(c: char) {
    '0' <= c <= '9' || 'a' <= c <= 'f'
  }

  /** Sixteen lower-case hexadecimal digits. */
  type Digest = s: string | |s| == 16 && forall i :: 0 <= i < |s| ==> HexChar(s[i])
    witness seq(16, _ => '0')

  type Hash = string -> Digest
  type Params = map<string, string>

  const PROXY_PARAMS := {"page", "datasource"}

  // ------------------------------------------------------------------ parameters

  function CleanParams(params: Params): Params {
    params - PROXY_PARAMS
  }

  ghost predicate Least(k: string, keys: set<string>) {
    k in keys && forall j :: j in keys ==> j == k || Below(k, j)
  }

  lemma {:induction false} LeastExists(keys: set<string>)
    requires keys != {}
    ensures exists k :: Least(k, keys)
    decreases |keys|
  {
    var k :| k in keys;
    var rest := keys - {k};
    if rest == {} {
      forall j | j in keys ensures j == k {
        assert j == k || j in rest;
      }
      assert Least(k, keys);
    } else {
      LeastExists(rest);
      var m :| Least(m, rest);
      BelowTotal(k, m);
      if Below(k, m) {
        forall j | j in keys ensures j == k || Below(k, j) {
          if j != k && j != m { BelowTransitive(k, m, j); }
        }
        assert Least(k, keys);
      } else {
        assert Least(m, keys);
      }
    }
  }

  /** The parameters in key order: what `normalize_params` and `sort_keys` leave to be written. */
  ghost function SortedPairs(params: Params): seq<Pair>
    decreases |params.Keys|
  {
    if params == map[] then []
    else
      assert params.Keys != {} by { var k :| k in params; assert k in params.Keys; }
      LeastExists(params.Keys);
      var k :| Least(k, params.Keys);
      assert (params - {k}).Keys == params.Keys - {k};
      [(k, params[k])] + SortedPairs(params - {k})
  }

  lemma SortedPairsStep(p: Params)
    requires p != map[]
    ensures SortedPairs(p) != []
    ensures var k := SortedPairs(p)[0].0;
            k in p && SortedPairs(p)[0] == (k, p[k]) && SortedPairs(p)[1..] == SortedPairs(p - {k})
            && |(p - {k}).Keys| < |p.Keys| && p == (p - {k})[k := p[k]]
  {
    var k := SortedPairs(p)[0].0;
    assert (p - {k}).Keys == p.Keys - {k};
  }

  lemma {:induction false} SortedPairsInjective(p: Params, q: Params)
    requires SortedPairs(p) == SortedPairs(q)
    ensures p == q
    decreases |p.Keys|
  {
    if p != map[] {
      SortedPairsStep(p);
    }
    if q != map[] {
      SortedPairsStep(q);
    }
    if p != map[] && q != map[] {
      var k := SortedPairs(p)[0].0;
      SortedPairsInjective(p - {k}, q - {k});
    }
  }

  // ------------------------------------------------------------------------ keys

  /** The bytes fed to the hash: the parameters, then the normalised body if there is one. */
  ghost function Preimage(loads: Loads, params: Params, body: string): string {
    ObjectTo(SortedPairs(CleanParams(params)), if body == "" then "" else NormalizeBody(loads, body))
  }

  ghost function QueryHash(h: Hash, loads: Loads, params: Params, body: string): Digest {
    h(Preimage(loads, params, body))
  }

  ghost function BuildCacheKey(h: Hash, loads: Loads, datasource: string, verb: string, path: string,
                               params: Params, body: string): string {
    "esi:" + (datasource + (":" + (verb + (":" + (path + (":" + QueryHash(h, loads, params, body)))))))
  }

  /** A request after validation; an absent body is the empty one. */
  datatype Request = Request(verb: string, path: string, params: Params, body: string)

  const DEFAULT_DATASOURCE := "tranquility"

  function Datasource(r: Request): string {
    if "datasource" in r.params then r.params["datasource"] else DEFAULT_DATASOURCE
  }

  /** What the routes and the validation steps let through. */
  predicate Accepted(loads: Loads, r: Request, maxItems: int) {
    && Datasource(r) in {"tranquility", "singularity"}
    && (r.verb == "GET" || r.verb == "POST")
    && (if r.verb == "POST" then ValidatePostBody(loads, r.body, maxItems) == None else r.body == "")
  }

  /** Let through are exactly a GET without a body and a POST of a well-formed batch, for either datasource. */
  lemma AcceptedRequests(loads: Loads, r: Request, maxItems: int)
    ensures Accepted(loads, r, maxItems) <==>
              && ("datasource" in r.params ==> r.params["datasource"] in {"tranquility", "singularity"})
              && (|| (r.verb == "GET" && r.body == "")
                  || (r.verb == "POST" && r.body != "" && loads(r.body).Batch? && |loads(r.body).items| <= maxItems))
  {
    AcceptedBodies(loads, r.body, maxItems);
  }

  /** The arguments of `esi.fetch`. */
  datatype Upstream = Upstream(path: string, verb: string, params: Params, body: string)

  function WithDatasource(params: Params, datasource: string): Params {
    if datasource == "tranquility" then params else params["datasource" := datasource]
  }

  ghost function ForwardedBody(loads: Loads, r: Request): string {
    if r.verb == "POST" then NormalizeBody(loads, r.body) else r.body
  }

  ghost function Forwarded(loads: Loads, r: Request): Upstream {
    Upstream(r.path, r.verb, WithDatasource(CleanParams(r.params), Datasource(r)), ForwardedBody(loads, r))
  }

  ghost function KeyOf(h: Hash, loads: Loads, r: Request): string {
    BuildCacheKey(h, loads, Datasource(r), r.verb, r.path, r.params, ForwardedBody(loads, r))
  }

  ghost function PreimageOf(loads: Loads, r: Request): string {
    Preimage(loads, r.params, ForwardedBody(loads, r))
  }

  predicate NoColon(s: string) {
    forall i :: 0 <= i < |s| ==> s[i] != ':'
  }

  /** A colon-free field ends at the first colon. */
  lemma FieldEnds(a: string, b: string, x: string, y: string)
    requires a + (":" + x) == b + (":" + y) && NoColon(a) && NoColon(b)
    ensures a == b && x == y
  {
    var s := a + (":" + x);
    assert s[|a|] == ':' && s[|b|] == ':';
    assert forall i :: 0 <= i < |a| ==> s[i] == a[i];
    assert forall i :: 0 <= i < |b| ==> s[i] == b[i];
    Cut(a, b, ":" + x, ":" + y);
    Cut(":", ":", x, y);
  }

  /** A digest of fixed length is found at the end, whatever precedes it. */
  lemma DigestEnds(a: string, b: string, x: Digest, y: Digest)
    requires a + (":" + x) == b + (":" + y)
    ensures a == b && x == y
  {
    assert |a| == |b|;
    Cut(a, b, ":" + x, ":" + y);
    Cut(":", ":", x, y);
  }

  lemma KeyFields(d: string, e: string, v: string, w: string, p: string, q: string, x: Digest, y: Digest)
    requires NoColon(d) && NoColon(e) && NoColon(v) && NoColon(w)
    requires "esi:" + (d + (":" + (v + (":" + (p + (":" + x))))))
             == "esi:" + (e + (":" + (w + (":" + (q + (":" + y))))))
    ensures d == e && v == w && p == q && x == y
  {
    var x1, y1 := p + (":" + x), q + (":" + y);
    var x2, y2 := v + (":" + x1), w + (":" + y1);
    Cut("esi:", "esi:", d + (":" + x2), e + (":" + y2));
    FieldEnds(d, e, x2, y2);
    FieldEnds(v, w, x1, y1);
    DigestEnds(p, q, x, y);
  }

  lemma PreimageInjective(loads: Loads, p: Params, b: string, q: Params, c: string)
    requires Preimage(loads, p, b) == Preimage(loads, q, c)
    ensures CleanParams(p) == CleanParams(q)
    ensures (if b == "" then "" else NormalizeBody(loads, b)) == (if c == "" then "" else NormalizeBody(loads, c))
  {
    ObjectPrefixFree(SortedPairs(CleanParams(p)), SortedPairs(CleanParams(q)),
                     if b == "" then "" else NormalizeBody(loads, b),
                     if c == "" then "" else NormalizeBody(loads, c));
    SortedPairsInjective(CleanParams(p), CleanParams(q));
  }

  /**
   Any two accepted requests with equal cache keys send exactly the same thing
   upstream, unless two different preimages collide under the truncated hash.
   */
  lemma EqualKeysSameUpstream(h: Hash, loads: Loads, r: Request, s: Request, maxItems: int)
    requires ReadsBack(loads) && Accepted(loads, r, maxItems) && Accepted(loads, s, maxItems)
    requires KeyOf(h, loads, r) == KeyOf(h, loads, s)
    ensures || Forwarded(loads, r) == Forwarded(loads, s)
            || (PreimageOf(loads, r) != PreimageOf(loads, s) && h(PreimageOf(loads, r)) == h(PreimageOf(loads, s)))
  {
    KeyFields(Datasource(r), Datasource(s), r.verb, s.verb, r.path, s.path,
              h(PreimageOf(loads, r)), h(PreimageOf(loads, s)));
    if PreimageOf(loads, r) == PreimageOf(loads, s) {
      PreimageInjective(loads, r.params, ForwardedBody(loads, r), s.params, ForwardedBody(loads, s));
      if r.verb == "POST" {
        BatchCanonicalisation(loads, r.body, r.body, maxItems);
        BatchCanonicalisation(loads, s.body, s.body, maxItems);
      }
    }
  }

  /**
   What goes upstream, parameter by parameter: never `page`; `datasource` exactly if it is
   not the default one, and then that one; any other exactly as the client gave it.
   */
  lemma ForwardedParams(loads: Loads, r: Request, maxItems: int, k: string)
    requires Accepted(loads, r, maxItems)
    ensures var sent := Forwarded(loads, r).params;
            if k == "page" then k !in sent
            else if k == "datasource" then
              && (k in sent <==> "datasource" in r.params && r.params["datasource"] == "singularity")
              && (k in sent ==> sent[k] == "singularity")
            else
              (k in sent <==> k in r.params) && (k in sent ==> sent[k] == r.params[k])
  {
  }

  /** Path and verb go upstream unchanged, and of a batch the canonical text of the very same items. */
  lemma ForwardedRest(loads: Loads, r: Request, maxItems: int)
    requires ReadsBack(loads) && Accepted(loads, r, maxItems)
    ensures Forwarded(loads, r).path == r.path && Forwarded(loads, r).verb == r.verb
    ensures r.verb == "GET" ==> Forwarded(loads, r).body == "" == r.body
    ensures r.verb == "POST" ==>
              && loads(r.body).Batch? && loads(Forwarded(loads, r).body).Batch?
              && Members(loads(Forwarded(loads, r).body).items) == Members(loads(r.body).items)
              && Ordered(loads(Forwarded(loads, r).body).items)
  {
    if r.verb == "POST" {
      CanonOrders(loads(r.body).items);
      assert loads(DumpList(Canon(loads(r.body).items))) == Batch(Canon(loads(r.body).items));
    }
  }

  /** The datasource a request is for shows in what it sends. */
  lemma DatasourceShows(loads: Loads, r: Request, maxItems: int)
    requires Accepted(loads, r, maxItems)
    ensures Datasource(r) == "singularity" <==> "datasource" in Forwarded(loads, r).params
    ensures Datasource(r) == "tranquility" <==> "datasource" !in Forwarded(loads, r).params
  {
    ForwardedParams(loads, r, maxItems, "datasource");
  }

  /** Conversely, accepted requests that send the same thing upstream share a key. */
  lemma SameUpstreamEqualKeys(h: Hash, loads: Loads, r: Request, s: Request, maxItems: int)
    requires Accepted(loads, r, maxItems) && Accepted(loads, s, maxItems)
    requires Forwarded(loads, r) == Forwarded(loads, s)
    ensures KeyOf(h, loads, r) == KeyOf(h, loads, s)
  {
    DatasourceShows(loads, r, maxItems);
    DatasourceShows(loads, s, maxItems);
    assert CleanParams(r.params) == Forwarded(loads, r).params - {"datasource"};
    assert CleanParams(s.params) == Forwarded(loads, s).params - {"datasource"};
  }

  /** So two accepted requests share a key exactly if they send the same thing, collisions of the hash aside. */
  lemma EqualKeysIffSameUpstream(h: Hash, loads: Loads, r: Request, s: Request, maxItems: int)
    requires ReadsBack(loads) && Accepted(loads, r, maxItems) && Accepted(loads, s, maxItems)
    requires h(PreimageOf(loads, r)) == h(PreimageOf(loads, s)) ==> PreimageOf(loads, r) == PreimageOf(loads, s)
    ensures KeyOf(h, loads, r) == KeyOf(h, loads, s) <==> Forwarded(loads, r) == Forwarded(loads, s)
  {
    if KeyOf(h, loads, r) == KeyOf(h, loads, s) {
      EqualKeysSameUpstream(h, loads, r, s, maxItems);
    }
    if Forwarded(loads, r) == Forwarded(loads, s) {
      SameUpstreamEqualKeys(h, loads, r, s, maxItems);
    }
  }

  /** The archive files a response under the very hash that ends its cache key. */
  lemma ArchiveHashEndsKey(h: Hash, loads: Loads, r: Request)
    ensures var q := QueryHash(h, loads, CleanParams(r.params), ForwardedBody(loads, r));
            var key := KeyOf(h, loads, r);
            |key| >= 16 && key[|key| - 16..] == q
  {
    assert CleanParams(CleanParams(r.params)) == CleanParams(r.params);
    var q: string := h(PreimageOf(loads, r));
    var front := "esi:" + Datasource(r) + ":" + r.verb + ":" + r.path + ":";
    assert KeyOf(h, loads, r) == front + q;
  }

  // ------------------------------------------------------------------- collector

  /**
   The collector files a body under the very key that a client's request for the same
   data looks up, and fetched it with the very arguments that request would forward.
   */
  lemma CollectorWarmsClientKey(h: Hash, loads: Loads, datasource: string, path: string, params: Params, r: Request)
    requires "page" !in params && "datasource" !in params
    requires r.verb == "GET" && r.path == path && r.body == "" && Datasource(r) == datasource
    requires CleanParams(r.params) == params
    ensures BuildCacheKey(h, loads, datasource, "GET", path, params, "") == KeyOf(h, loads, r)
    ensures Upstream(path, "GET", WithDatasource(params, datasource), "") == Forwarded(loads, r)
  {
    assert CleanParams(params) == params;
  }

  /** The key of a refetch is never a request's own cache key. */
  lemma RefetchKeyIsNoCacheKey(h: Hash, loads: Loads, r: Request, key: string)
    ensures key + ":refetch" != KeyOf(h, loads, r)
  {
    var k := KeyOf(h, loads, r);
    var digest: Digest := h(PreimageOf(loads, r));
    assert |k| > 0 && k[|k| - 1] == digest[15];
    assert (key + ":refetch")[|key| + 7] == 'h';
  }
}
