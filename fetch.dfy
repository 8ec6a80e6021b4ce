/**
 * `Client.fetchDocument` and `Client.FetchAllDocuments`
 * (`internal/api/client.go`): the cache-or-network decision for one file and
 * the collection of all catalog documents with their failures.
 *
 * The HTTP client and the cache's write are outside the model: a
 * `Services` value says what a GET of each URL returns and whether a cache
 * write of each URL succeeds.  The cache's contents are a map from URL to
 * bytes.  The Go code fetches the documents in goroutines; the model fetches
 * them one after the other, in an arbitrary order, and states the outcome
 * for every order.
 */
module Fetch {
  import opened Wrappers
  import opened Text
  import opened MapOrder
  import opened ApiTypes
  import Catalog

  /** What the HTTP client returns for a GET: a transport error, or a status and the full body. */
  datatype Response = Failed(reason: Str) | Response(statusCode: int, status: Str, body: Bytes)

  /** The world outside the model: the server's answer per URL and whether a cache write succeeds. */
  datatype Services = Services(get: Str -> Response, cacheWriteSucceeds: Str -> bool)

  /** The client settings that `fetchDocument` consults. */
  datatype Config = Config(baseUrl: Str, refresh: bool, hasCache: bool)

  /** One fetch's result and the bytes it writes to the cache under its URL, if any. */
  datatype Outcome = Outcome(result: Result<Bytes, Error>, stored: Option<Bytes>)

  function Url(baseUrl: Str, filename: Str): (u: Str)
    ensures |u| == |baseUrl| + 1 + |filename|
    ensures u[..|baseUrl|] == baseUrl && u[|baseUrl|] == '/' && u[|baseUrl| + 1..] == filename
  {
    baseUrl + "/" + filename
  }

  /** A cache lookup: the bytes under `url`, if any. */
  function Get(cache: map<Str, Bytes>, url: Str): Option<Bytes> {
    if url in cache then Some(cache[url]) else None
  }

  /** The cache after an outcome. */
  function Apply(cache: map<Str, Bytes>, url: Str, o: Outcome): map<Str, Bytes> {
    if o.stored.Some? then cache[url := o.stored.value] else cache
  }

  /** Whether the cache answers the request for `url`. */
  predicate Hit(cfg: Config, cache: map<Str, Bytes>, url: Str) {
    cfg.hasCache && !cfg.refresh && url in cache
  }

  /** What `fetchDocument(filename)` does, given the cache it starts from. */
  function Decide(cfg: Config, svc: Services, cache: map<Str, Bytes>, filename: Str): (o: Outcome)
    ensures var url := Url(cfg.baseUrl, filename);
      Hit(cfg, cache, url) ==> o == Outcome(Ok(cache[url]), None)
    ensures var url := Url(cfg.baseUrl, filename);
      !Hit(cfg, cache, url) ==>
        (o.result.Ok? <==> svc.get(url).Response? && svc.get(url).statusCode == 200) &&
        (o.result.Ok? ==> o.result.value == svc.get(url).body)
    ensures o.result.Err? ==> o.stored.None?
    ensures o.stored.Some? ==> cfg.hasCache && o.result == Ok(o.stored.value)
  {
    var url := Url(cfg.baseUrl, filename);
    if Hit(cfg, cache, url) then Outcome(Ok(cache[url]), None)
    else
      match svc.get(url)
      case Failed(reason) => Outcome(Err(TransportError(reason)), None)
      case Response(statusCode, status, body) =>
        if statusCode != 200 then Outcome(Err(HttpStatus(statusCode, status)), None)
        else Outcome(Ok(body), if cfg.hasCache && svc.cacheWriteSucceeds(url) then Some(body) else None)
  }

  // ---- properties of one fetch ----

  /** A failed request names the cause: the transport error, or the status code and text. */
  lemma DecideErrors(cfg: Config, svc: Services, cache: map<Str, Bytes>, filename: Str)
    requires !Hit(cfg, cache, Url(cfg.baseUrl, filename))
    ensures var r := svc.get(Url(cfg.baseUrl, filename));
      (r.Failed? ==> Decide(cfg, svc, cache, filename).result == Err(TransportError(r.reason))) &&
      (r.Response? && r.statusCode != 200 ==>
        Decide(cfg, svc, cache, filename).result == Err(HttpStatus(r.statusCode, r.status)))
  {
  }

  /** With a cache, a downloaded document is stored under its URL exactly when the write succeeds. */
  lemma DecideStores(cfg: Config, svc: Services, cache: map<Str, Bytes>, filename: Str)
    requires cfg.hasCache
    requires Decide(cfg, svc, cache, filename).result.Ok? && !Hit(cfg, cache, Url(cfg.baseUrl, filename))
    ensures var o := Decide(cfg, svc, cache, filename);
      o.stored.Some? <==> svc.cacheWriteSucceeds(Url(cfg.baseUrl, filename))
  {
  }

  /**
   * After a download that was stored, fetching the same file again without
   * refresh is a cache hit: the same bytes, whatever the server would now
   * answer, and no further write.
   */
  lemma StoredThenHit(cfg: Config, svc: Services, svc': Services, cache: map<Str, Bytes>, filename: Str)
    requires !cfg.refresh
    requires Decide(cfg, svc, cache, filename).stored.Some?
    ensures var url := Url(cfg.baseUrl, filename);
      var o := Decide(cfg, svc, cache, filename);
      Decide(cfg, svc', Apply(cache, url, o), filename) == Outcome(o.result, None)
  {
  }

  /** With refresh the cache is never read: the outcome does not depend on its contents. */
  lemma RefreshIgnoresCache(cfg: Config, svc: Services, c1: map<Str, Bytes>, c2: map<Str, Bytes>, filename: Str)
    requires cfg.refresh
    ensures Decide(cfg, svc, c1, filename) == Decide(cfg, svc, c2, filename)
  {
  }

  /** Only the cache entry of the file's own URL matters. */
  lemma DecideOwnEntry(cfg: Config, svc: Services, c1: map<Str, Bytes>, c2: map<Str, Bytes>, filename: Str)
    requires Get(c1, Url(cfg.baseUrl, filename)) == Get(c2, Url(cfg.baseUrl, filename))
    ensures Decide(cfg, svc, c1, filename) == Decide(cfg, svc, c2, filename)
  {
  }

  /** Different files under one base URL have different URLs. */
  lemma UrlInjective(baseUrl: Str, f1: Str, f2: Str)
    requires f1 != f2
    ensures Url(baseUrl, f1) != Url(baseUrl, f2)
  {
    var p := baseUrl + "/";
    assert Url(baseUrl, f1) == p + f1 && Url(baseUrl, f2) == p + f2;
    assert (p + f1)[|p|..] == f1;
    assert (p + f2)[|p|..] == f2;
  }

  // ---- the whole catalog ----

  function FileOf(code: Str): Str
    requires code in Catalog.DocumentFiles
  {
    Catalog.Filename(Catalog.DocumentFiles[code])
  }

  function UrlOf(cfg: Config, code: Str): Str
    requires code in Catalog.DocumentFiles
  {
    Url(cfg.baseUrl, FileOf(code))
  }

  /** Two catalog codes never share a URL. */
  lemma CatalogUrlsDistinct(cfg: Config, c1: Str, c2: Str)
    requires c1 in Catalog.DocumentFiles && c2 in Catalog.DocumentFiles && c1 != c2
    ensures UrlOf(cfg, c1) != UrlOf(cfg, c2)
  {
    Catalog.FilenamesDistinct(c1, c2);
    UrlInjective(cfg.baseUrl, FileOf(c1), FileOf(c2));
  }

  /** The outcome of fetching one catalog code from the initial cache. */
  function CodeOutcome(cfg: Config, svc: Services, cache: map<Str, Bytes>, code: Str): Outcome
    requires code in Catalog.DocumentFiles
  {
    Decide(cfg, svc, cache, FileOf(code))
  }

  /** The documents among `done` that were fetched, by code. */
  function Fetched(cfg: Config, svc: Services, cache: map<Str, Bytes>, done: set<Str>): (r: map<Str, Bytes>)
    ensures forall c :: c in r <==> c in done && c in Catalog.DocumentFiles && CodeOutcome(cfg, svc, cache, c).result.Ok?
    ensures forall c :: c in r ==> r[c] == CodeOutcome(cfg, svc, cache, c).result.value
  {
    map c | c in done && c in Catalog.DocumentFiles && CodeOutcome(cfg, svc, cache, c).result.Ok? ::
      CodeOutcome(cfg, svc, cache, c).result.value
  }

  /** The documents that were fetched, by code. */
  function Successes(cfg: Config, svc: Services, cache: map<Str, Bytes>): map<Str, Bytes> {
    Fetched(cfg, svc, cache, Catalog.DocumentFiles.Keys)
  }

  lemma FetchedStep(cfg: Config, svc: Services, cache: map<Str, Bytes>, done: set<Str>, code: Str)
    requires code in Catalog.DocumentFiles && code !in done
    ensures var o := CodeOutcome(cfg, svc, cache, code).result;
      Fetched(cfg, svc, cache, done + {code}) ==
        if o.Ok? then Fetched(cfg, svc, cache, done)[code := o.value] else Fetched(cfg, svc, cache, done)
  {
    var o := CodeOutcome(cfg, svc, cache, code).result;
    var before, after := Fetched(cfg, svc, cache, done), Fetched(cfg, svc, cache, done + {code});
    var v := if o.Ok? then o.value else [];
    forall c
      ensures c in after <==> c in before || (c == code && o.Ok?)
    {
    }
    forall c | c in after
      ensures after[c] == if c == code then v else before[c]
    {
    }
    MapExtend(before, after, code, o.Ok?, v);
  }

  /** A map that gains at most the one new key `k`, with value `v`, is `before` or `before[k := v]`. */
  lemma MapExtend<K, V>(before: map<K, V>, after: map<K, V>, k: K, ok: bool, v: V)
    requires k !in before
    requires forall c :: c in after <==> c in before || (c == k && ok)
    requires forall c :: c in after ==> after[c] == if c == k then v else before[c]
    ensures after == if ok then before[k := v] else before
  {
    var expected := if ok then before[k := v] else before;
    assert forall c :: c in after <==> c in expected;
  }

  /** The error entry of one code: "fetching CODE: cause", or none. */
  function Block(cfg: Config, svc: Services, cache: map<Str, Bytes>, code: Str): (b: seq<Error>)
    ensures forall i :: 0 <= i < |b| ==> FailedCode(b[i]) == code
  {
    if code in Catalog.DocumentFiles && CodeOutcome(cfg, svc, cache, code).result.Err? then
      [Fetching(code, CodeOutcome(cfg, svc, cache, code).result.error)]
    else []
  }

  function FailureBlock(cfg: Config, svc: Services, cache: map<Str, Bytes>): Str -> seq<Error> {
    code => Block(cfg, svc, cache, code)
  }

  /** The collected errors when the codes are visited in `order`. */
  function Failures(cfg: Config, svc: Services, cache: map<Str, Bytes>, order: seq<Str>): seq<Error> {
    ConcatMap(order, FailureBlock(cfg, svc, cache))
  }

  function FailedCode(e: Error): Str {
    if e.Fetching? then e.docCode else ""
  }

  /** The error `FetchAllDocuments` returns for a list of collected errors. */
  function Aggregate(errs: seq<Error>): (r: Option<Error>)
    ensures r.None? <==> errs == []
    ensures r.Some? ==> r.value == FetchingDocuments(errs)
  {
    if |errs| > 0 then Some(FetchingDocuments(errs)) else None
  }

  class Client {
    const baseUrl: Str
    const refresh: bool
    /** Whether `cache.New` succeeded; without a cache every request goes to the network. */
    const hasCache: bool
    const services: Services
    var cache: map<Str, Bytes>

    /** `NewClient`, with the cache's contents at start-up. */
    constructor (refresh: bool, hasCache: bool, stored: map<Str, Bytes>, services: Services)
      ensures this.baseUrl == Catalog.BaseUrl && this.refresh == refresh && this.hasCache == hasCache
      ensures this.services == services && this.cache == stored
    {
      this.baseUrl := Catalog.BaseUrl;
      this.refresh := refresh;
      this.hasCache := hasCache;
      this.services := services;
      this.cache := stored;
    }

    function Cfg(): Config {
      Config(baseUrl, refresh, hasCache)
    }

    /** `fetchDocument`: the cache first (unless refreshing), then the network; a failed cache write is ignored. */
    method FetchDocument(filename: Str) returns (r: Result<Bytes, Error>)
      modifies this
      ensures var o := Decide(Cfg(), services, old(cache), filename);
        r == o.result && cache == Apply(old(cache), Url(baseUrl, filename), o)
    {
      var url := baseUrl + "/" + filename;
      if hasCache && !refresh {
        if url in cache {
          return Ok(cache[url]);
        }
      }
      var resp := services.get(url);
      if resp.Failed? {
        return Err(TransportError(resp.reason));
      }
      if resp.statusCode != 200 {
        return Err(HttpStatus(resp.statusCode, resp.status));
      }
      var data := resp.body;
      if hasCache {
        if services.cacheWriteSucceeds(url) {
          cache := cache[url := data];
        }
      }
      return Ok(data);
    }

    /**
     * `FetchAllDocuments`: every catalog document, visited in `order`.  The
     * map holds the documents that were fetched; the error lists one entry
     * per failed code and is absent when none failed.  Each code's URL holds
     * what that code's fetch from the initial cache left there, and every
     * other URL is untouched.
     */
    method FetchAllDocuments() returns (results: map<Str, Bytes>, err: Option<Error>, ghost order: seq<Str>)
      modifies this
      ensures IsEnumeration(order, Catalog.DocumentFiles.Keys)
      ensures results == Successes(Cfg(), services, old(cache))
      ensures err == Aggregate(Failures(Cfg(), services, old(cache), order))
      ensures CacheAfter(Cfg(), services, old(cache), cache, Catalog.DocumentFiles.Keys)
    {
      ghost var cache0 := cache;
      var cfg := Config(baseUrl, refresh, hasCache);
      results := map[];
      var errs: seq<Error> := [];
      order := [];
      var remaining := Catalog.DocumentFiles.Keys;
      while remaining != {}
        invariant Collected(cfg, services, cache0, cache, order, remaining, results, errs)
        decreases remaining
      {
        var code :| code in remaining;
        CollectStep(cfg, services, cache0, cache, order, remaining, results, errs, code);
        var data := FetchDocument(Catalog.Filename(Catalog.DocumentFiles[code]));
        if data.Err? {
          errs := errs + [Fetching(code, data.error)];
        } else {
          assert errs + Block(cfg, services, cache0, code) == errs;
          results := results[code := data.value];
        }
        order := order + [code];
        remaining := remaining - {code};
      }
      CollectDone(cfg, services, cache0, cache, order, results, errs);
      err := if |errs| > 0 then Some(FetchingDocuments(errs)) else None;
    }
  }

  /**
   * The cache after the codes in `done` were fetched, starting from
   * `cache0`: their URLs hold what their fetches left, the other catalog
   * URLs and every URL outside the catalog are as they were.
   */
  ghost predicate CacheAfter(cfg: Config, svc: Services, cache0: map<Str, Bytes>, cache: map<Str, Bytes>, done: set<Str>) {
    (forall c :: c in Catalog.DocumentFiles && c !in done ==> Get(cache, UrlOf(cfg, c)) == Get(cache0, UrlOf(cfg, c))) &&
    (forall c :: c in Catalog.DocumentFiles && c in done ==>
      Get(cache, UrlOf(cfg, c)) == Get(Apply(cache0, UrlOf(cfg, c), CodeOutcome(cfg, svc, cache0, c)), UrlOf(cfg, c))) &&
    (forall u :: (forall c :: c in Catalog.DocumentFiles ==> u != UrlOf(cfg, c)) ==> Get(cache, u) == Get(cache0, u))
  }

  /** The loop's state after visiting `order`, with `remaining` still to visit. */
  ghost predicate Collected(cfg: Config, svc: Services, cache0: map<Str, Bytes>, cache: map<Str, Bytes>,
                            order: seq<Str>, remaining: set<Str>, results: map<Str, Bytes>, errs: seq<Error>) {
    remaining <= Catalog.DocumentFiles.Keys &&
    Distinct(order) &&
    (forall k :: k in order <==> k in Catalog.DocumentFiles && k !in remaining) &&
    results == Fetched(cfg, svc, cache0, Catalog.DocumentFiles.Keys - remaining) &&
    errs == Failures(cfg, svc, cache0, order) &&
    CacheAfter(cfg, svc, cache0, cache, Catalog.DocumentFiles.Keys - remaining)
  }

  /** The loop's end: every code was visited once. */
  lemma CollectDone(cfg: Config, svc: Services, cache0: map<Str, Bytes>, cache: map<Str, Bytes>,
                    order: seq<Str>, results: map<Str, Bytes>, errs: seq<Error>)
    requires Collected(cfg, svc, cache0, cache, order, {}, results, errs)
    ensures IsEnumeration(order, Catalog.DocumentFiles.Keys)
    ensures results == Successes(cfg, svc, cache0)
    ensures errs == Failures(cfg, svc, cache0, order)
    ensures CacheAfter(cfg, svc, cache0, cache, Catalog.DocumentFiles.Keys)
  {
    assert Catalog.DocumentFiles.Keys - {} == Catalog.DocumentFiles.Keys;
  }

  /** One iteration of the loop: fetching `code` keeps `Collected`. */
  lemma CollectStep(cfg: Config, svc: Services, cache0: map<Str, Bytes>, cache: map<Str, Bytes>,
                    order: seq<Str>, remaining: set<Str>, results: map<Str, Bytes>, errs: seq<Error>, code: Str)
    requires Collected(cfg, svc, cache0, cache, order, remaining, results, errs)
    requires code in remaining
    ensures Decide(cfg, svc, cache, FileOf(code)) == CodeOutcome(cfg, svc, cache0, code)
    ensures var o := CodeOutcome(cfg, svc, cache0, code);
      Collected(cfg, svc, cache0, Apply(cache, UrlOf(cfg, code), o), order + [code], remaining - {code},
        if o.result.Ok? then results[code := o.result.value] else results,
        errs + Block(cfg, svc, cache0, code))
  {
    var done := Catalog.DocumentFiles.Keys - remaining;
    CacheStep(cfg, svc, cache0, cache, done, code);
    FailuresSnoc(cfg, svc, cache0, order, code);
    FetchedStep(cfg, svc, cache0, done, code);
    assert done + {code} == Catalog.DocumentFiles.Keys - (remaining - {code});
  }

  /**
   * Fetching one more code: its fetch from the current cache is its fetch
   * from the initial cache, and its write keeps `CacheAfter`.
   */
  lemma CacheStep(cfg: Config, svc: Services, cache0: map<Str, Bytes>, before: map<Str, Bytes>, done: set<Str>, code: Str)
    requires code in Catalog.DocumentFiles && code !in done
    requires CacheAfter(cfg, svc, cache0, before, done)
    ensures Decide(cfg, svc, before, FileOf(code)) == CodeOutcome(cfg, svc, cache0, code)
    ensures CacheAfter(cfg, svc, cache0, Apply(before, UrlOf(cfg, code), CodeOutcome(cfg, svc, cache0, code)), done + {code})
  {
    CacheStepOwn(cfg, svc, cache0, before, done, code);
    CacheStepCatalog(cfg, before, code, CodeOutcome(cfg, svc, cache0, code));
    CacheStepOutside(cfg, cache0, before, code, CodeOutcome(cfg, svc, cache0, code));
  }

  /** The code's own fetch and entry: nothing before it touched its URL. */
  lemma CacheStepOwn(cfg: Config, svc: Services, cache0: map<Str, Bytes>, before: map<Str, Bytes>, done: set<Str>, code: Str)
    requires code in Catalog.DocumentFiles && code !in done
    requires CacheAfter(cfg, svc, cache0, before, done)
    ensures Decide(cfg, svc, before, FileOf(code)) == CodeOutcome(cfg, svc, cache0, code)
    ensures var url := UrlOf(cfg, code); var o := CodeOutcome(cfg, svc, cache0, code);
      Get(Apply(before, url, o), url) == Get(Apply(cache0, url, o), url)
  {
    var url := UrlOf(cfg, code);
    assert Get(before, url) == Get(cache0, url);
    DecideOwnEntry(cfg, svc, before, cache0, FileOf(code));
  }

  /** The write for `code` leaves the URLs of the other catalog codes alone. */
  lemma CacheStepCatalog(cfg: Config, before: map<Str, Bytes>, code: Str, o: Outcome)
    requires code in Catalog.DocumentFiles
    ensures forall c :: c in Catalog.DocumentFiles && c != code ==>
      Get(Apply(before, UrlOf(cfg, code), o), UrlOf(cfg, c)) == Get(before, UrlOf(cfg, c))
  {
    forall c | c in Catalog.DocumentFiles && c != code
      ensures Get(Apply(before, UrlOf(cfg, code), o), UrlOf(cfg, c)) == Get(before, UrlOf(cfg, c))
    {
      CatalogUrlsDistinct(cfg, c, code);
      ApplyElsewhere(before, UrlOf(cfg, code), o, UrlOf(cfg, c));
    }
  }

  /** The write for `code` leaves every URL outside the catalog alone. */
  lemma CacheStepOutside(cfg: Config, cache0: map<Str, Bytes>, before: map<Str, Bytes>, code: Str, o: Outcome)
    requires code in Catalog.DocumentFiles
    requires forall u :: (forall c :: c in Catalog.DocumentFiles ==> u != UrlOf(cfg, c)) ==> Get(before, u) == Get(cache0, u)
    ensures forall u :: (forall c :: c in Catalog.DocumentFiles ==> u != UrlOf(cfg, c)) ==>
      Get(Apply(before, UrlOf(cfg, code), o), u) == Get(cache0, u)
  {
    forall u | (forall c :: c in Catalog.DocumentFiles ==> u != UrlOf(cfg, c))
      ensures Get(Apply(before, UrlOf(cfg, code), o), u) == Get(cache0, u)
    {
      assert u != UrlOf(cfg, code);
      ApplyElsewhere(before, UrlOf(cfg, code), o, u);
    }
  }

  lemma ApplyElsewhere(cache: map<Str, Bytes>, url: Str, o: Outcome, u: Str)
    requires u != url
    ensures Get(Apply(cache, url, o), u) == Get(cache, u)
  {
  }

  lemma FailuresSnoc(cfg: Config, svc: Services, cache: map<Str, Bytes>, order: seq<Str>, code: Str)
    requires code in Catalog.DocumentFiles
    ensures Failures(cfg, svc, cache, order + [code]) == Failures(cfg, svc, cache, order) + Block(cfg, svc, cache, code)
  {
    assert (order + [code])[..|order|] == order;
  }

  // ---- properties of the collection ----

  /**
   * Every catalog code either was fetched or has exactly one error entry
   * naming it, with its cause; whatever the order, nothing else is in the
   * errors.
   */
  lemma {:induction false} FailuresPerCode(cfg: Config, svc: Services, cache: map<Str, Bytes>, order: seq<Str>, code: Str)
    requires IsEnumeration(order, Catalog.DocumentFiles.Keys)
    ensures Select(Failures(cfg, svc, cache, order), FailedCode, code) == Block(cfg, svc, cache, code)
  {
    var f := FailureBlock(cfg, svc, cache);
    assert forall key, i :: key in order && 0 <= i < |f(key)| ==> FailedCode(f(key)[i]) == key;
    SelectConcatMap(order, f, FailedCode, code);
    assert code in order <==> code in Catalog.DocumentFiles;
  }

  /** The error is present exactly when some catalog code failed. */
  lemma {:induction false} ErrorIffSomeFailure(cfg: Config, svc: Services, cache: map<Str, Bytes>, order: seq<Str>)
    requires IsEnumeration(order, Catalog.DocumentFiles.Keys)
    ensures Aggregate(Failures(cfg, svc, cache, order)).Some? <==>
      exists c :: c in Catalog.DocumentFiles && CodeOutcome(cfg, svc, cache, c).result.Err?
  {
    var f := FailureBlock(cfg, svc, cache);
    if c :| c in Catalog.DocumentFiles && CodeOutcome(cfg, svc, cache, c).result.Err? {
      FailuresPerCode(cfg, svc, cache, order, c);
    } else {
      ConcatMapEmpty(order, f);
    }
  }

  /** A code is in the map exactly when it has no error entry. */
  lemma SuccessOrFailure(cfg: Config, svc: Services, cache: map<Str, Bytes>, order: seq<Str>, code: Str)
    requires IsEnumeration(order, Catalog.DocumentFiles.Keys)
    requires code in Catalog.DocumentFiles
    ensures code in Successes(cfg, svc, cache) <==> Select(Failures(cfg, svc, cache, order), FailedCode, code) == []
  {
    FailuresPerCode(cfg, svc, cache, order, code);
  }

  /** The errors of two visiting orders are the same entries, permuted. */
  lemma {:induction false} FailuresOrderIndependent(cfg: Config, svc: Services, cache: map<Str, Bytes>, o1: seq<Str>, o2: seq<Str>)
    requires IsEnumeration(o1, Catalog.DocumentFiles.Keys) && IsEnumeration(o2, Catalog.DocumentFiles.Keys)
    ensures multiset(Failures(cfg, svc, cache, o1)) == multiset(Failures(cfg, svc, cache, o2))
  {
    EnumerationsPermute(o1, o2, Catalog.DocumentFiles.Keys);
    ConcatMapPermutation(o1, o2, FailureBlock(cfg, svc, cache));
  }
}
