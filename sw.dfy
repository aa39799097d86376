/** `public/sw.js`: the service worker's cache policy. The browser's
    `CacheStorage` is the worker's `caches` field, an ordered list of named
    caches each mapping a request URL to a stored response; the network is
    a parameter giving each URL's outcome (`None` when `fetch` rejects). */
module ServiceWorker {
  import opened Common

  /** `CACHE_NAME` */
  const CacheName := "myreal-v1"
  /** `OFFLINE_URL` */
  const OfflineUrl := "/offline"
  /** The paths `install` stores, relative to the worker's origin. */
  const Precached: seq<string> := ["/", "/offline", "/manifest.json"]

  /** A response: one with a status, or `Response.error()`. */
  datatype Response = Response(status: int, body: string) | NetworkError

  /** `response.ok` */
  predicate IsOk(r: Response)
  {
    r.Response? && 200 <= r.status <= 299
  }

  /** A fetch whose response the Cache API stores: it resolved to an ok
      response that is not partial (`put` and `addAll` reject status 206). */
  predicate Succeeded(outcome: Option<Response>)
  {
    outcome.Some? && IsOk(outcome.value) && outcome.value.status != 206
  }

  datatype NamedCache = NamedCache(name: string, entries: map<string, Response>)

  /** The position of the first cache called `name`, or the number of
      caches when there is none. */
  function Find(caches: seq<NamedCache>, name: string): (i: nat)
    ensures i <= |caches|
    ensures i < |caches| ==> caches[i].name == name
    ensures forall j :: 0 <= j < i ==> caches[j].name != name
  {
    if caches == [] then 0
    else if caches[0].name == name then 0
    else
      var i := 1 + Find(caches[1..], name);
      assert forall j :: 1 <= j < |caches| ==> caches[j] == caches[1..][j - 1];
      i
  }

  predicate Has(caches: seq<NamedCache>, name: string)
  {
    Find(caches, name) < |caches|
  }

  /** The entries of the cache called `name`, empty when there is none. */
  function Entries(caches: seq<NamedCache>, name: string): (e: map<string, Response>)
  {
    var i := Find(caches, name);
    if i < |caches| then caches[i].entries else map[]
  }

  /** The storage with the cache called `name` holding `e`; a missing cache
      is created after the others, and no other cache changes. */
  function WithEntries(caches: seq<NamedCache>, name: string, e: map<string, Response>): (d: seq<NamedCache>)
    ensures Has(caches, name) ==>
      d == caches[Find(caches, name) := NamedCache(name, e)]
    ensures !Has(caches, name) ==> d == caches + [NamedCache(name, e)]
    ensures Has(d, name) && Entries(d, name) == e
  {
    var i := Find(caches, name);
    if i < |caches| then
      var d := caches[i := NamedCache(name, e)];
      assert Find(d, name) == i by {
        FindFirst(d, name, i);
      }
      d
    else
      var d := caches + [NamedCache(name, e)];
      assert Find(d, name) == i by {
        FindFirst(d, name, i);
      }
      d
  }

  /** The first cache called `name` is found. */
  lemma {:induction false} FindFirst(caches: seq<NamedCache>, name: string, i: nat)
    requires i < |caches| && caches[i].name == name
    requires forall j :: 0 <= j < i ==> caches[j].name != name
    ensures Find(caches, name) == i
  {
    if i > 0 {
      FindFirst(caches[1..], name, i - 1);
    }
  }

  /** Replacing the first cache called `name` keeps what every other name
      finds. */
  lemma WithEntriesKeepsOthers(caches: seq<NamedCache>, name: string, e: map<string, Response>, other: string)
    requires other != name
    ensures Entries(WithEntries(caches, name, e), other) == Entries(caches, other)
  {
    var d := WithEntries(caches, name, e);
    var k := Find(caches, other);
    if k < |caches| {
      FindFirst(d, other, k);
    } else {
      assert forall j :: 0 <= j < |d| ==> d[j].name != other;
    }
  }

  /** `caches.open(CACHE_NAME)`: the cache exists afterwards, and nothing
      changes when it already did. */
  function Open(caches: seq<NamedCache>): (d: seq<NamedCache>)
    ensures Has(d, CacheName)
    ensures Has(caches, CacheName) ==> d == caches
    ensures !Has(caches, CacheName) ==> d == caches + [NamedCache(CacheName, map[])]
  {
    WithEntries(caches, CacheName, Entries(caches, CacheName))
  }

  /** `cache.put(request, copy)` on the cache `CACHE_NAME`, opened first. */
  function Put(caches: seq<NamedCache>, url: string, response: Response): (d: seq<NamedCache>)
    ensures Entries(d, CacheName) == Entries(caches, CacheName)[url := response]
    ensures Has(d, CacheName)
  {
    WithEntries(caches, CacheName, Entries(caches, CacheName)[url := response])
  }

  /** `caches.match(url)`: the response stored under `url` in the first
      cache, in creation order, that has one. */
  function Lookup(caches: seq<NamedCache>, url: string): (r: Option<Response>)
    ensures r.None? <==> forall i :: 0 <= i < |caches| ==> url !in caches[i].entries
    ensures r.Some? ==>
      exists i :: 0 <= i < |caches| && url in caches[i].entries && r.value == caches[i].entries[url]
                  && forall j :: 0 <= j < i ==> url !in caches[j].entries
  {
    if caches == [] then None
    else if url in caches[0].entries then Some(caches[0].entries[url])
    else
      var r := Lookup(caches[1..], url);
      assert forall j :: 1 <= j < |caches| ==> caches[j] == caches[1..][j - 1];
      r
  }

  /** Storing one URL leaves what every other URL finds unchanged. */
  lemma {:induction false} PutKeepsOthers(caches: seq<NamedCache>, url: string, response: Response, other: string)
    requires other != url
    ensures Lookup(Put(caches, url, response), other) == Lookup(caches, other)
  {
    var d := Put(caches, url, response);
    if caches == [] {
    } else if caches[0].name == CacheName {
      assert Find(caches, CacheName) == 0;
      assert other in d[0].entries <==> other in caches[0].entries;
      assert d[1..] == caches[1..];
    } else {
      var rest := caches[1..];
      PutCons(caches, url, response);
      PutKeepsOthers(rest, url, response, other);
      assert d[1..] == Put(rest, url, response);
    }
  }

  /** Storing past a first cache of another name leaves that cache first
      and stores into the rest. */
  lemma PutCons(caches: seq<NamedCache>, url: string, response: Response)
    requires caches != [] && caches[0].name != CacheName
    ensures Put(caches, url, response) == [caches[0]] + Put(caches[1..], url, response)
  {
    var rest := caches[1..];
    assert Find(caches, CacheName) == 1 + Find(rest, CacheName);
    assert Entries(rest, CacheName) == Entries(caches, CacheName);
    var c := NamedCache(CacheName, Entries(caches, CacheName)[url := response]);
    if Has(rest, CacheName) {
      assert caches[Find(caches, CacheName) := c] == [caches[0]] + rest[Find(rest, CacheName) := c];
    } else {
      assert caches + [c] == [caches[0]] + (rest + [c]);
    }
  }

  /** Once `CACHE_NAME` is the only cache, a stored response is what its URL
      finds. (Before `activate`, an older cache holding the same URL would
      still be found first.) */
  lemma PutThenLookup(caches: seq<NamedCache>, url: string, response: Response)
    requires forall i :: 0 <= i < |caches| ==> caches[i].name == CacheName
    ensures Lookup(Put(caches, url, response), url) == Some(response)
  {
    if caches != [] {
      assert Find(caches, CacheName) == 0;
    }
  }

  /** The entries `addAll` stores over `base`: the URL of each of `paths`
      on `origin` mapped to the response fetched for it. */
  function Stored(base: map<string, Response>, origin: string, paths: seq<string>, fetched: seq<Option<Response>>): (m: map<string, Response>)
    requires |fetched| == |paths|
    requires forall i :: 0 <= i < |fetched| ==> Succeeded(fetched[i])
  {
    if paths == [] then base
    else
      var n := |paths| - 1;
      assert Succeeded(fetched[n]);
      assert forall i :: 0 <= i < n ==> fetched[..n][i] == fetched[i];
      Stored(base, origin, paths[..n], fetched[..n])[origin + paths[n] := fetched[n].value]
  }

  /** Each path's URL holds its own response when the paths differ. */
  lemma {:induction false} StoredValue(base: map<string, Response>, origin: string, paths: seq<string>, fetched: seq<Option<Response>>, i: nat)
    requires |fetched| == |paths| && i < |paths|
    requires forall k :: 0 <= k < |fetched| ==> Succeeded(fetched[k])
    requires forall k, j :: 0 <= k < j < |paths| ==> paths[k] != paths[j]
    ensures origin + paths[i] in Stored(base, origin, paths, fetched)
    ensures Stored(base, origin, paths, fetched)[origin + paths[i]] == fetched[i].value
  {
    var n := |paths| - 1;
    if i < n {
      var init, got := paths[..n], fetched[..n];
      assert init[i] == paths[i] && got[i] == fetched[i];
      assert forall k :: 0 <= k < n ==> got[k] == fetched[k];
      assert forall k, j :: 0 <= k < j < n ==> init[k] == paths[k] && init[j] == paths[j];
      StoredValue(base, origin, init, got, i);
      DistinctUrls(origin, paths[i], paths[n]);
    }
  }

  /** `addAll` adds the URLs of `paths` and keeps every other entry. */
  lemma {:induction false} StoredKeys(base: map<string, Response>, origin: string, paths: seq<string>, fetched: seq<Option<Response>>)
    requires |fetched| == |paths|
    requires forall i :: 0 <= i < |fetched| ==> Succeeded(fetched[i])
    ensures Stored(base, origin, paths, fetched).Keys == base.Keys + Resolved(origin, paths)
    ensures forall k :: k in base && k !in Resolved(origin, paths) ==> Stored(base, origin, paths, fetched)[k] == base[k]
  {
    if paths != [] {
      var n := |paths| - 1;
      assert forall i :: 0 <= i < n ==> fetched[..n][i] == fetched[i];
      StoredKeys(base, origin, paths[..n], fetched[..n]);
    }
  }

  /** Different paths give different URLs on one origin. */
  lemma DistinctUrls(origin: string, a: string, b: string)
    requires a != b
    ensures origin + a != origin + b
  {
    assert (origin + a)[|origin|..] == a;
    assert (origin + b)[|origin|..] == b;
  }

  /** The URLs of `paths` on `origin`. */
  function Resolved(origin: string, paths: seq<string>): (urls: set<string>)
    ensures forall i :: 0 <= i < |paths| ==> origin + paths[i] in urls
    ensures forall u :: u in urls ==> exists i :: 0 <= i < |paths| && u == origin + paths[i]
  {
    if paths == [] then {}
    else
      var urls := Resolved(origin, paths[..|paths| - 1]) + {origin + paths[|paths| - 1]};
      assert forall i :: 0 <= i < |paths| - 1 ==> paths[..|paths| - 1][i] == paths[i];
      urls
  }

  /** A first install stores exactly the three precached URLs, each with the
      response fetched for it. */
  lemma InstallStoresExactly(origin: string, fetched: seq<Option<Response>>)
    requires |fetched| == |Precached|
    requires forall i :: 0 <= i < |fetched| ==> Succeeded(fetched[i])
    ensures Stored(map[], origin, Precached, fetched).Keys == {origin + "/", origin + "/offline", origin + "/manifest.json"}
    ensures forall i :: 0 <= i < |Precached| ==> Stored(map[], origin, Precached, fetched)[origin + Precached[i]] == fetched[i].value
  {
    var urls := Resolved(origin, Precached);
    StoredKeys(map[], origin, Precached, fetched);
    assert origin + Precached[0] in urls && origin + Precached[1] in urls && origin + Precached[2] in urls;
    forall u | u in urls
      ensures u in {origin + "/", origin + "/offline", origin + "/manifest.json"}
    {
      var i :| 0 <= i < |Precached| && u == origin + Precached[i];
    }
    forall i | 0 <= i < |Precached|
      ensures Stored(map[], origin, Precached, fetched)[origin + Precached[i]] == fetched[i].value
    {
      StoredValue(map[], origin, Precached, fetched, i);
    }
  }

  /** The loop of `activate` over the cache names: the caches named
      `CACHE_NAME` survive, in order, and every other one is deleted. */
  method KeepNamed(names: seq<NamedCache>) returns (kept: seq<NamedCache>)
    ensures kept == Keep(names)
  {
    kept := [];
    var i := 0;
    while i < |names|
      invariant 0 <= i <= |names|
      invariant kept == Keep(names[..i])
    {
      KeepStep(names, i);
      if names[i].name == CacheName {
        kept := kept + [names[i]];
      }
      i := i + 1;
    }
    assert names[..|names|] == names;
  }

  /** One more cache considered by `activate`'s loop. */
  lemma KeepStep(caches: seq<NamedCache>, i: nat)
    requires i < |caches|
    ensures Keep(caches[..i + 1]) == Keep(caches[..i]) + (if caches[i].name == CacheName then [caches[i]] else [])
  {
    assert caches[..i + 1][..i] == caches[..i];
  }

  /** The caches `activate` keeps: those named `CACHE_NAME`, in order. */
  function Keep(caches: seq<NamedCache>): (kept: seq<NamedCache>)
    ensures |kept| <= |caches|
  {
    if caches == [] then []
    else
      var n := |caches| - 1;
      Keep(caches[..n]) + (if caches[n].name == CacheName then [caches[n]] else [])
  }

  /** Only caches named `CACHE_NAME` are kept. */
  lemma {:induction false} KeepOnlyCurrent(caches: seq<NamedCache>)
    ensures forall i :: 0 <= i < |Keep(caches)| ==> Keep(caches)[i].name == CacheName
  {
    if caches != [] {
      KeepOnlyCurrent(caches[..|caches| - 1]);
    }
  }

  /** One cache is kept exactly when one existed, and the first kept is the
      one a lookup by name finds. */
  lemma {:induction false} KeepFirstFound(caches: seq<NamedCache>)
    ensures Has(caches, CacheName) <==> Keep(caches) != []
    ensures Keep(caches) != [] ==> Keep(caches)[0] == caches[Find(caches, CacheName)]
  {
    if caches != [] {
      var n := |caches| - 1;
      var init := caches[..n];
      KeepFirstFound(init);
      assert Keep(caches) == Keep(init) + (if caches[n].name == CacheName then [caches[n]] else []);
      assert forall i :: 0 <= i < n ==> caches[i] == init[i];
      if Has(init, CacheName) {
        FindFirst(caches, CacheName, Find(init, CacheName));
      } else if caches[n].name == CacheName {
        FindFirst(caches, CacheName, n);
      }
    }
  }

  /** `activate` keeps the current cache's entries as they were. */
  lemma KeepEntries(caches: seq<NamedCache>)
    ensures Entries(Keep(caches), CacheName) == Entries(caches, CacheName)
  {
    var kept := Keep(caches);
    KeepOnlyCurrent(caches);
    KeepFirstFound(caches);
    if kept != [] {
      assert Find(kept, CacheName) == 0;
    }
  }

  /** A fetch event's request: `verb` is `request.method`, `origin` is `new URL(request.url).origin`. */
  datatype Request = Request(verb: string, mode: string, url: string, origin: string)

  /** How the `fetch` listener treats a request. */
  datatype Route = Ignored | Navigation | SameOrigin

  function RouteOf(request: Request, workerOrigin: string): (route: Route)
    ensures route == Ignored <==>
      request.verb != "GET" || (request.mode != "navigate" && request.origin != workerOrigin)
    ensures route == Navigation <==> request.verb == "GET" && request.mode == "navigate"
    ensures route == SameOrigin ==> request.origin == workerOrigin
  {
    if request.verb != "GET" then Ignored
    else if request.mode == "navigate" then Navigation
    else if request.origin == workerOrigin then SameOrigin
    else Ignored
  }

  /** A promise of a cache lookup. A promise is an object, and every object
      is truthy in JavaScript. */
  datatype Pending = Pending(settles: Option<Response>)

  predicate Truthy(p: Pending)
  {
    true
  }

  /** JavaScript's `a || b` on two promises. */
  function EitherPromise(a: Pending, b: Pending): Pending
  {
    if Truthy(a) then a else b
  }

  /** What the navigation `catch` handler settles to: the offline page when
      it is cached and `undefined` otherwise. The cached `'/'` is never
      served, whether or not the offline page is cached. */
  function NavigationFallback(caches: seq<NamedCache>, origin: string): (r: Option<Response>)
    ensures r == Lookup(caches, origin + OfflineUrl)
    ensures Lookup(caches, origin + OfflineUrl).None? && Lookup(caches, origin + "/").Some? ==> r.None?
  {
    EitherPromise(Pending(Lookup(caches, origin + OfflineUrl)), Pending(Lookup(caches, origin + "/"))).settles
  }

  /** The outcome of a fetch event: not intercepted, or answered through
      `respondWith` with a response or with `undefined`. */
  datatype Reply = Passed | Answered(response: Option<Response>)

  class Worker {
    /** `self.location.origin` */
    const origin: string
    var caches: seq<NamedCache>
    /** `self.skipWaiting()` was called. */
    var skippedWaiting: bool
    /** `self.clients.claim()` was called. */
    var claimed: bool

    constructor(origin: string, existing: seq<NamedCache>)
      ensures this.origin == origin && caches == existing
      ensures !skippedWaiting && !claimed
    {
      this.origin := origin;
      caches := existing;
      skippedWaiting := false;
      claimed := false;
    }

    /** The `install` listener: open the cache, then `addAll` the precached
        URLs (`fetched` holds what fetching each one gave), which stores them
        all when every fetch gives an ok response and none otherwise;
        `skipWaiting` follows a successful `addAll`. */
    method Install(fetched: seq<Option<Response>>) returns (ok: bool)
      requires |fetched| == |Precached|
      modifies this
      ensures ok <==> forall i :: 0 <= i < |fetched| ==> Succeeded(fetched[i])
      ensures !ok ==> caches == Open(old(caches)) && skippedWaiting == old(skippedWaiting)
      ensures ok ==> caches == WithEntries(old(caches), CacheName, Stored(Entries(old(caches), CacheName), origin, Precached, fetched))
      ensures ok ==> skippedWaiting
      ensures claimed == old(claimed)
    {
      var base := Entries(caches, CacheName);
      var before := caches;
      caches := Open(caches);
      ok := forall i :: 0 <= i < |fetched| ==> Succeeded(fetched[i]);
      if ok {
        caches := WithEntries(before, CacheName, Stored(base, origin, Precached, fetched));
        skippedWaiting := true;
      }
    }

    /** The `activate` listener: delete every cache not named `CACHE_NAME`,
        then claim the clients. */
    method Activate()
      modifies this
      ensures caches == Keep(old(caches))
      ensures claimed && skippedWaiting == old(skippedWaiting)
    {
      caches := KeepNamed(caches);
      claimed := true;
    }

    /** The `fetch` listener for one request; `net` is what `fetch(request)`
        gives. Navigations are network first with the offline page as
        fallback; same-origin requests are network first, store every ok
        response, and on failure give the response cached before the fetch
        or `Response.error()`. */
    method HandleFetch(request: Request, net: Option<Response>) returns (reply: Reply)
      modifies this
      ensures RouteOf(request, origin) == Ignored ==> reply == Passed && caches == old(caches)
      ensures RouteOf(request, origin) == Navigation ==>
        && caches == old(caches)
        && reply == Answered(if net.Some? then net else Lookup(old(caches), origin + OfflineUrl))
      ensures RouteOf(request, origin) == SameOrigin ==>
        && caches == (if Succeeded(net) then Put(old(caches), request.url, net.value) else old(caches))
        && reply == Answered(Some(if net.Some? then net.value
                                  else if Lookup(old(caches), request.url).Some? then Lookup(old(caches), request.url).value
                                  else NetworkError))
      ensures skippedWaiting == old(skippedWaiting) && claimed == old(claimed)
    {
      if request.verb != "GET" {
        return Passed;
      }
      if request.mode == "navigate" {
        if net.Some? {
          return Answered(net);
        }
        return Answered(NavigationFallback(caches, origin));
      }
      if request.origin == origin {
        var cached := Lookup(caches, request.url);
        if net.None? {
          return Answered(Some(if cached.Some? then cached.value else NetworkError));
        }
        if Succeeded(net) {
          caches := Put(caches, request.url, net.value);
        }
        return Answered(net);
      }
      return Passed;
    }
  }
}
