/**
 * URL enrichment of package-insert points: derive a drug code from each
 * point's `package_insert_no`, look each distinct number up once, keep the
 * successful answers in a request-scoped cache and write `payload["url"]`
 * into the points whose number hit the cache. The lookup service is a
 * function parameter.
 */
module PackageInserts {
  import opened Wrappers
  import opened Failures
  import opened Json
  import opened Records

  // ------------------------------------------------------------ drug code

  /**
   * `package_insert_no.rsplit('_', 1)[0]`: everything before the last
   * underscore, or the whole string when it has none.
   */
  function DrugCode(no: string): (code: string)
    ensures '_' !in no ==> code == no
    ensures '_' in no ==> && |code| < |no| && code == no[..|code|] && no[|code|] == '_'
                          && '_' !in no[|code| + 1..]
    decreases |no|
  {
    if '_' !in no then no
    else if no[|no| - 1] == '_' then no[..|no| - 1]
    else
      var prefix := no[..|no| - 1];
      assert '_' in prefix by {
        var i :| 0 <= i < |no| && no[i] == '_';
        assert prefix[i] == '_';
      }
      var code := DrugCode(prefix);
      assert no[|code| + 1..] == prefix[|code| + 1..] + [no[|no| - 1]];
      code
  }

  /** Splitting off the last segment undoes joining one on: rsplit inverts the join. */
  lemma DrugCodeOfJoined(code: string, segment: string)
    requires '_' !in segment
    ensures DrugCode(code + "_" + segment) == code
  {
    var no := code + "_" + segment;
    assert no[|code|] == '_';
    var c := DrugCode(no);
    assert c == no[..|code|] == code;
  }

  /** The source's own example: the trailing "_13" is dropped. */
  lemma DrugCodeExample()
    ensures DrugCode("6250014F1036_2_13") == "6250014F1036_2"
  {
    assert "6250014F1036_2_13" == "6250014F1036_2" + "_" + "13";
    DrugCodeOfJoined("6250014F1036_2", "13");
  }

  // --------------------------------------------------------------- lookup

  /**
   * The `url` field of the code-to-url service's answer for a drug code;
   * Null for a non-200 answer, a failed call or an answer without a url.
   */
  type UrlService = string -> Value

  /**
   * `fetch_drug_url`: a string number is looked up by its drug code; any
   * other value makes `rsplit` raise, which the function swallows into None.
   */
  function FetchDrugUrl(no: Value, service: UrlService): (url: Value)
    ensures !no.Str? ==> url == Null
    ensures no.Str? ==> url == service(DrugCode(no.s))
  {
    match no
    case Str(s) => service(DrugCode(s))
    case _ => Null
  }

  // ------------------------------------------------------------ the cache

  /** The `package_insert_no` the enrichment collects for a point; None when it has none. */
  function CodeOf(p: Point): Value {
    GetOr(p.payload, "package_insert_no", Null)
  }

  /** The distinct truthy numbers of a list of points: what gets looked up. */
  ghost function LookupCodes(points: seq<Point>): set<Value> {
    set i | 0 <= i < |points| && Truthy(CodeOf(points[i])) :: CodeOf(points[i])
  }

  /** `set()` needs hashable elements: lists and dicts are not. */
  predicate Hashable(v: Value) {
    !v.Arr? && !v.Obj?
  }

  /**
   * The request-scoped cache: a number maps to its lookup's answer exactly
   * when that answer is truthy. It depends on the set of numbers only.
   */
  ghost function UrlCache(codes: set<Value>, service: UrlService): (cache: map<Value, Value>)
    ensures forall c :: c in cache <==> c in codes && Truthy(FetchDrugUrl(c, service))
  {
    map c | c in codes && Truthy(FetchDrugUrl(c, service)) :: FetchDrugUrl(c, service)
  }

  /** A failing lookup for one number leaves every other number's cache entry as it is. */
  lemma UrlCacheIsolation(codes: set<Value>, good: UrlService, bad: UrlService, c: Value)
    requires c in codes && c.Str?
    requires good(DrugCode(c.s)) == bad(DrugCode(c.s))
    ensures c in UrlCache(codes, good) <==> c in UrlCache(codes, bad)
    ensures c in UrlCache(codes, good) ==> UrlCache(codes, good)[c] == UrlCache(codes, bad)[c]
  {
  }

  /** The collecting loop: one entry per point, None where the payload has no number. */
  method CollectCodes(points: seq<Point>) returns (codes: seq<Value>)
    ensures |codes| == |points|
    ensures forall i :: 0 <= i < |points| ==> codes[i] == CodeOf(points[i])
  {
    codes := [];
    for i := 0 to |points|
      invariant |codes| == i
      invariant forall j :: 0 <= j < i ==> codes[j] == CodeOf(points[j])
    {
      var payload := points[i].payload;
      if payload != [] && Get(payload, "package_insert_no").Some? {
        codes := codes + [Get(payload, "package_insert_no").value];
      } else {
        codes := codes + [Null];
      }
    }
  }

  /**
   * `list(set(filter(None, codes)))`: the truthy numbers, each once, in an
   * unspecified order; raises when a truthy number is a list or a dict.
   */
  method UniqueCodes(codes: seq<Value>) returns (r: Result<seq<Value>, Error>)
    ensures r.Failure? <==> exists i :: 0 <= i < |codes| && Truthy(codes[i]) && !Hashable(codes[i])
    ensures r.Failure? ==> r.error == UnhashableCode
    ensures r.Success? ==> Distinct(r.value)
    ensures r.Success? ==> forall v :: v in r.value <==> v in codes && Truthy(v)
  {
    var seen: set<Value> := {};
    for i := 0 to |codes|
      invariant forall j :: 0 <= j < i ==> !Truthy(codes[j]) || Hashable(codes[j])
      invariant forall v :: v in seen <==> v in codes[..i] && Truthy(v)
    {
      if Truthy(codes[i]) {
        if !Hashable(codes[i]) {
          return Failure(UnhashableCode);
        }
        seen := seen + {codes[i]};
      }
      assert codes[..i + 1] == codes[..i] + [codes[i]];
    }
    assert codes[..|codes|] == codes;
    var unique: seq<Value> := [];
    var rest := seen;
    while rest != {}
      invariant rest <= seen
      invariant Distinct(unique)
      invariant forall v :: v in unique <==> v in seen && v !in rest
      decreases |rest|
    {
      var c :| c in rest;
      unique := unique + [c];
      rest := rest - {c};
    }
    r := Success(unique);
  }

  /**
   * The fan-out and fan-in: one `fetch_drug_url` call per listed number, in
   * list order (run one after the other here), recorded in `looked`; only
   * the string numbers reach the service. Then a cache entry for each
   * truthy answer.
   */
  method BuildUrlCache(unique: seq<Value>, service: UrlService)
    returns (cache: map<Value, Value>, looked: seq<Value>)
    ensures looked == unique
    ensures forall c :: c in cache <==> c in unique && Truthy(FetchDrugUrl(c, service))
    ensures forall c :: c in cache ==> cache[c] == FetchDrugUrl(c, service)
  {
    var results: seq<Value> := [];
    looked := [];
    for i := 0 to |unique|
      invariant looked == unique[..i]
      invariant |results| == i
      invariant forall j :: 0 <= j < i ==> results[j] == FetchDrugUrl(unique[j], service)
    {
      results := results + [FetchDrugUrl(unique[i], service)];
      looked := looked + [unique[i]];
    }
    cache := map[];
    for i := 0 to |unique|
      invariant forall c :: c in cache <==> c in unique[..i] && Truthy(FetchDrugUrl(c, service))
      invariant forall c :: c in cache ==> cache[c] == FetchDrugUrl(c, service)
    {
      if Truthy(results[i]) {
        cache := cache[unique[i] := results[i]];
      }
      assert unique[..i + 1] == unique[..i] + [unique[i]];
    }
    assert unique[..|unique|] == unique;
  }

  // -------------------------------------------------------------- writing

  /** A point after the write-back. */
  function WithUrl(p: Point, code: Value, cache: map<Value, Value>): (q: Point)
    ensures q.id == p.id && q.vector == p.vector
    ensures Truthy(code) && code in cache ==> Get(q.payload, "url") == Some(cache[code])
    ensures !(Truthy(code) && code in cache) ==> q == p
  {
    if Truthy(code) && code in cache then p.(payload := Set(p.payload, "url", cache[code])) else p
  }

  /**
   * The write-back sets `payload["url"]` to the cached answer exactly when
   * the point's number is truthy and cached; nothing else changes.
   */
  lemma WithUrlEffect(p: Point, code: Value, cache: map<Value, Value>)
    ensures var q := WithUrl(p, code, cache);
            && q.id == p.id && q.vector == p.vector
            && Get(q.payload, "url") ==
                 (if Truthy(code) && code in cache then Some(cache[code]) else Get(p.payload, "url"))
            && (forall k :: k != "url" ==> Get(q.payload, k) == Get(p.payload, k))
            && (!(Truthy(code) && code in cache) ==> q == p)
  {
  }

  /** The write-back loop, changing the points in place. */
  method ApplyUrls(points: array<Point>, codes: seq<Value>, cache: map<Value, Value>)
    requires |codes| == points.Length
    modifies points
    ensures forall i :: 0 <= i < points.Length ==> points[i] == WithUrl(old(points[i]), codes[i], cache)
  {
    for i := 0 to points.Length
      invariant forall j :: 0 <= j < i ==> points[j] == WithUrl(old(points[j]), codes[j], cache)
      invariant forall j :: i <= j < points.Length ==> points[j] == old(points[j])
    {
      if Truthy(codes[i]) && codes[i] in cache {
        points[i] := WithUrl(points[i], codes[i], cache);
      }
    }
  }

  /** The points as the enrichment leaves them. */
  ghost function Enriched(points: seq<Point>, service: UrlService): (r: seq<Point>)
    ensures |r| == |points|
  {
    var cache := UrlCache(LookupCodes(points), service);
    seq(|points|, i requires 0 <= i < |points| => WithUrl(points[i], CodeOf(points[i]), cache))
  }

  /**
   * After enrichment a point carries `url` equal to the cached answer
   * exactly when its number is truthy and the lookup answered truthily;
   * every other field, and every other point, is as before.
   */
  lemma EnrichedUrl(points: seq<Point>, service: UrlService, i: nat)
    requires i < |points|
    ensures var code := CodeOf(points[i]);
            var hit := Truthy(code) && Truthy(FetchDrugUrl(code, service));
            && Enriched(points, service)[i].id == points[i].id
            && Enriched(points, service)[i].vector == points[i].vector
            && Get(Enriched(points, service)[i].payload, "url") ==
                 (if hit then Some(FetchDrugUrl(code, service)) else Get(points[i].payload, "url"))
            && (!hit ==> Enriched(points, service)[i] == points[i])
  {
    var code := CodeOf(points[i]);
    if Truthy(code) {
      assert code in LookupCodes(points);
    }
    WithUrlEffect(points[i], code, UrlCache(LookupCodes(points), service));
  }

  /**
   * The enrichment block of both package-insert endpoints. It returns the
   * numbers `fetch_drug_url` was called with: each distinct truthy number
   * exactly once (only the string ones reach the service).
   */
  method Enrich(points: array<Point>, service: UrlService) returns (r: Result<seq<Value>, Error>)
    modifies points
    ensures r.Failure? <==> exists i :: 0 <= i < points.Length && Truthy(CodeOf(old(points[i])))
                                        && !Hashable(CodeOf(old(points[i])))
    ensures r.Failure? ==> r.error == UnhashableCode && points[..] == old(points[..])
    ensures r.Success? ==> Distinct(r.value)
    ensures r.Success? ==> forall v :: v in r.value <==> v in LookupCodes(old(points[..]))
    ensures r.Success? ==> points[..] == Enriched(old(points[..]), service)
  {
    ghost var before := points[..];
    var codes := CollectCodes(points[..]);
    var unique := UniqueCodes(codes);
    if unique.Failure? {
      forall i | 0 <= i < |codes| ensures codes[i] == CodeOf(old(points[i])) {
      }
      return Failure(unique.error);
    }
    forall v ensures v in unique.value <==> v in LookupCodes(before) {
      if v in unique.value {
        var i :| 0 <= i < |codes| && codes[i] == v;
        assert CodeOf(before[i]) == v;
      }
    }
    var cache, looked := BuildUrlCache(unique.value, service);
    assert cache == UrlCache(LookupCodes(before), service);
    ApplyUrls(points, codes, cache);
    r := Success(looked);
  }
}
