/**
 * The caching service worker: the generation name and the install manifest,
 * the decisions its fetch handler takes, each handler's effect on the cache
 * storage as a function of the storage before it, and a class whose methods
 * run the three handlers against the storage it holds.
 *
 * Promises, the network and storage faults are replaced by an outcome given
 * to each handler as a parameter; every handler runs as one sequential step.
 */
module ServiceWorker {
  import opened Wrappers
  import opened Http
  import opened CacheStore

  /** The current cache generation. */
  const CACHE_NAME: string := "next-offline-v1"

  /** The resources fetched and stored at install time. */
  const URLS_TO_CACHE: seq<Url> :=
    ["/", "/favicon.ico", "/next.svg", "/vercel.svg", "/file.svg", "/window.svg", "/globe.svg"]

  const OFFLINE_TEXT: string := "You are offline. Please check your connection."
  const NETWORK_ERROR_TEXT: string := "Network error happened"

  // ---------------------------------------------------------------------
  // Outcomes of what the worker cannot see
  // ---------------------------------------------------------------------

  /** How the `cache.add(url)` of one manifest entry settled. */
  datatype AddOutcome = Added(response: Response) | AddRejected

  /** How `fetch(request)` settled: resolved (possibly with no response) or rejected. */
  datatype NetResult = Delivered(response: Option<Response>) | TransportFailure

  /**
   * How the write-back that is not awaited ended: the entry was stored, the
   * cache was opened but `put` failed, or `caches.open` itself rejected.
   */
  datatype WriteOutcome = Stored | PutRejected | OpenRejected

  /**
   * Everything outside the worker that one fetch event depends on: whether
   * `caches.match(request)` rejects, what the network does, how the
   * write-back ends, and whether `caches.match("/")` rejects.
   */
  datatype Environment = Environment(
    lookupRejects: bool,
    network: NetResult,
    writeBack: WriteOutcome,
    rootLookupRejects: bool)

  /**
   * What the fetch handler does with an event: leaves it to the browser,
   * settles `respondWith` with a response (`None` is `undefined`), or hands
   * `respondWith` a rejected promise.
   */
  datatype Reply = NotIntercepted | Resolved(response: Option<Response>) | Rejected

  // ---------------------------------------------------------------------
  // Decisions of the fetch handler
  // ---------------------------------------------------------------------

  /** Only GET requests are handled. */
  predicate Intercepts(req: Request)
  {
    req.httpMethod == "GET"
  }

  /** A response is written back only if present, status 200 and of type "basic". */
  predicate WorthCaching(response: Option<Response>)
  {
    response.Some? && response.value.status == 200 && response.value.responseType == "basic"
  }

  /** A top-level document load. */
  predicate IsNavigation(req: Request)
  {
    req.mode == "navigate"
  }

  /** The page built when the navigation fallback's lookup rejects: default status 200. */
  function OfflinePage(): (r: Response)
    ensures r.status == 200 && r.body == OFFLINE_TEXT && r.contentType == Some("text/plain")
  {
    Response(200, "default", OFFLINE_TEXT, Some("text/plain"))
  }

  /** The response built when a non-navigation fetch fails. */
  function NetworkErrorPage(): (r: Response)
    ensures r.status == 408 && r.body == NETWORK_ERROR_TEXT && r.contentType == Some("text/plain")
  {
    Response(408, "default", NETWORK_ERROR_TEXT, Some("text/plain"))
  }

  // ---------------------------------------------------------------------
  // Each handler's effect, as a function of the storage before it
  // ---------------------------------------------------------------------

  /** The URLs whose add succeeded. */
  ghost function Succeeded(urls: seq<Url>, outs: seq<AddOutcome>): set<Url>
    requires |urls| == |outs|
  {
    set i | 0 <= i < |urls| && outs[i].Added? :: urls[i]
  }

  /**
   * `entries` after adding `urls` one by one, where each add either stores
   * its response or fails and changes nothing. Every succeeded URL gains an
   * entry; every other entry is left as it was.
   */
  function AddAll(entries: Entries, urls: seq<Url>, outs: seq<AddOutcome>): (r: Entries)
    requires |urls| == |outs|
    ensures r.Keys == entries.Keys + Succeeded(urls, outs)
    ensures forall u :: u in entries && u !in Succeeded(urls, outs) ==> r[u] == entries[u]
  {
    if urls == [] then entries
    else
      var n := |urls| - 1;
      var before := AddAll(entries, urls[..n], outs[..n]);
      assert Succeeded(urls, outs) ==
             Succeeded(urls[..n], outs[..n]) + (if outs[n].Added? then {urls[n]} else {}) by {
        forall u | u in Succeeded(urls, outs)
          ensures u in Succeeded(urls[..n], outs[..n]) + (if outs[n].Added? then {urls[n]} else {})
        {
          var i :| 0 <= i < |urls| && outs[i].Added? && urls[i] == u;
          if i < n {
            assert urls[..n][i] == u && outs[..n][i] == outs[i];
          }
        }
        forall u | u in Succeeded(urls[..n], outs[..n]) ensures u in Succeeded(urls, outs) {
          var i :| 0 <= i < n && outs[..n][i].Added? && urls[..n][i] == u;
          assert urls[i] == u && outs[i].Added?;
        }
      }
      match outs[n]
      case Added(response) => before[urls[n] := response]
      case AddRejected => before
  }

  /**
   * The install handler: open `CACHE_NAME` (creating it if absent) and add
   * every manifest URL independently; if the open rejects, nothing changes.
   */
  function Installed(s: Store, openRejects: bool, outs: seq<AddOutcome>): (r: Store)
    requires Valid(s) && |outs| == |URLS_TO_CACHE|
    ensures Valid(r)
  {
    if openRejects then s
    else
      var handle := Open(s, CACHE_NAME);
      Store(handle.names, handle.caches[CACHE_NAME := AddAll(handle.caches[CACHE_NAME], URLS_TO_CACHE, outs)])
  }

  /** The activate handler: only `CACHE_NAME` survives, with its entries. */
  function Activated(s: Store): (r: Store)
    requires Valid(s)
    ensures Valid(r)
    ensures r.caches.Keys == s.caches.Keys * {CACHE_NAME}
    ensures forall n :: n in r.caches ==> r.caches[n] == s.caches[n]
  {
    if CACHE_NAME in s.caches then Store([CACHE_NAME], map[CACHE_NAME := s.caches[CACHE_NAME]])
    else Store([], map[])
  }

  /** The write-back of `response` under `url` into `CACHE_NAME`. */
  function WrittenBack(s: Store, url: Url, response: Response, w: WriteOutcome): (r: Store)
    requires Valid(s)
    ensures Valid(r)
  {
    match w
    case OpenRejected => s
    case PutRejected => Open(s, CACHE_NAME)
    case Stored => Put(Open(s, CACHE_NAME), CACHE_NAME, url, response)
  }

  /** What the fetch handler answers to `req`. */
  function Respond(s: Store, req: Request, env: Environment): Reply
  {
    if !Intercepts(req) then NotIntercepted
    else if env.lookupRejects then Rejected
    else match Match(s, req.url)
      case Some(hit) => Resolved(Some(hit))
      case None =>
        match env.network
        case Delivered(response) => Resolved(response)
        case TransportFailure =>
          if !IsNavigation(req) then Resolved(Some(NetworkErrorPage()))
          else if env.rootLookupRejects then Resolved(Some(OfflinePage()))
          else Resolved(Match(s, "/"))
  }

  /** The storage after the fetch handler has handled `req`. */
  function AfterFetch(s: Store, req: Request, env: Environment): (r: Store)
    requires Valid(s)
    ensures Valid(r)
  {
    if Intercepts(req) && !env.lookupRejects && Match(s, req.url).None?
       && env.network.Delivered? && WorthCaching(env.network.response)
    then WrittenBack(s, req.url, env.network.response.value, env.writeBack)
    else s
  }

  // ---------------------------------------------------------------------
  // The worker over its cache storage
  // ---------------------------------------------------------------------

  /** A service worker together with the origin's cache storage. */
  class Worker {
    /** The cache names in creation order, as `caches.keys()` lists them. */
    var names: seq<string>
    /** Every cache's entries, by cache name. */
    var storage: map<string, Entries>

    function State(): Store
      reads this
    {
      Store(names, storage)
    }

    predicate Valid()
      reads this
    {
      CacheStore.Valid(State())
    }

    /** A worker starting over the storage an earlier version left behind. */
    constructor (names: seq<string>, storage: map<string, Entries>)
      requires CacheStore.Valid(Store(names, storage))
      ensures Valid() && State() == Store(names, storage)
    {
      this.names := names;
      this.storage := storage;
    }

    method OpenCache(name: string)
      requires Valid()
      modifies this
      ensures Valid() && State() == Open(old(State()), name)
    {
      var s := Open(State(), name);
      names, storage := s.names, s.caches;
    }

    method PutEntry(name: string, url: Url, response: Response)
      requires Valid() && name in storage
      modifies this
      ensures Valid() && State() == Put(old(State()), name, url, response)
    {
      storage := storage[name := storage[name][url := response]];
    }

    method DeleteCache(name: string)
      requires Valid()
      modifies this
      ensures Valid() && State() == Delete(old(State()), name)
    {
      var s := Delete(State(), name);
      names, storage := s.names, s.caches;
    }

    /** The install handler; `adds[i]` is how the add of `URLS_TO_CACHE[i]` settled. */
    method Install(openRejects: bool, adds: seq<AddOutcome>)
      requires Valid() && |adds| == |URLS_TO_CACHE|
      modifies this
      ensures Valid() && State() == Installed(old(State()), openRejects, adds)
    {
      if openRejects {
        return;
      }
      OpenCache(CACHE_NAME);
      ghost var handle := State();
      var i := 0;
      while i < |URLS_TO_CACHE|
        invariant 0 <= i <= |URLS_TO_CACHE|
        invariant Valid() && names == handle.names && CACHE_NAME in handle.caches
        invariant storage == handle.caches[CACHE_NAME := AddAll(handle.caches[CACHE_NAME], URLS_TO_CACHE[..i], adds[..i])]
      {
        assert URLS_TO_CACHE[..i + 1][..i] == URLS_TO_CACHE[..i];
        assert adds[..i + 1][..i] == adds[..i];
        if adds[i].Added? {
          PutEntry(CACHE_NAME, URLS_TO_CACHE[i], adds[i].response);
        }
        i := i + 1;
      }
      assert URLS_TO_CACHE[..i] == URLS_TO_CACHE && adds[..i] == adds;
    }

    /** The activate handler: delete every cache `caches.keys()` lists except `CACHE_NAME`. */
    method Activate()
      requires Valid()
      modifies this
      ensures Valid() && State() == Activated(old(State()))
    {
      var keys := names;
      var i := 0;
      while i < |keys|
        invariant 0 <= i <= |keys|
        invariant Valid()
        invariant forall n :: n in storage <==> n in old(storage) && (n == CACHE_NAME || n !in keys[..i])
        invariant forall n :: n in storage ==> storage[n] == old(storage)[n]
      {
        assert forall n :: n in keys[..i + 1] <==> n in keys[..i] || n == keys[i];
        if keys[i] != CACHE_NAME {
          DeleteCache(keys[i]);
        }
        i := i + 1;
      }
      assert keys[..i] == keys;
      SoleName(names, CACHE_NAME, CACHE_NAME in storage);
    }

    /** The write-back that the fetch handler starts and does not wait for. */
    method WriteBack(url: Url, response: Response, w: WriteOutcome)
      requires Valid()
      modifies this
      ensures Valid() && State() == WrittenBack(old(State()), url, response, w)
    {
      if w == OpenRejected {
        return;
      }
      OpenCache(CACHE_NAME);
      if w == Stored {
        PutEntry(CACHE_NAME, url, response);
      }
    }

    /** The fetch handler: cache first, then the network with write-back, then a fallback. */
    method Fetch(req: Request, env: Environment) returns (reply: Reply)
      requires Valid()
      modifies this
      ensures Valid()
      ensures reply == Respond(old(State()), req, env)
      ensures State() == AfterFetch(old(State()), req, env)
    {
      if !Intercepts(req) {
        return NotIntercepted;
      }
      if env.lookupRejects {
        return Rejected;
      }
      var cached := Match(State(), req.url);
      if cached.Some? {
        return Resolved(cached);
      }
      match env.network {
        case Delivered(response) =>
          if WorthCaching(response) {
            WriteBack(req.url, response.value, env.writeBack);
          }
          reply := Resolved(response);
        case TransportFailure =>
          if !IsNavigation(req) {
            reply := Resolved(Some(NetworkErrorPage()));
          } else if env.rootLookupRejects {
            reply := Resolved(Some(OfflinePage()));
          } else {
            reply := Resolved(Match(State(), "/"));
          }
      }
    }
  }

  /** Adding URLs that are all different stores each succeeded add's own response. */
  lemma {:induction false} AddAllStored(entries: Entries, urls: seq<Url>, outs: seq<AddOutcome>, i: nat)
    requires |urls| == |outs| && Distinct(urls) && i < |urls| && outs[i].Added?
    ensures urls[i] in AddAll(entries, urls, outs)
    ensures AddAll(entries, urls, outs)[urls[i]] == outs[i].response
  {
    var n := |urls| - 1;
    if i < n {
      assert urls[..n][i] == urls[i] && outs[..n][i] == outs[i];
      assert urls[n] != urls[i];
      AddAllStored(entries, urls[..n], outs[..n], i);
    }
  }

  /** A list without repetitions that holds `x` alone, or nothing, is `[x]` or `[]`. */
  lemma SoleName(xs: seq<string>, x: string, present: bool)
    requires Distinct(xs)
    requires forall y :: y in xs <==> present && y == x
    ensures xs == if present then [x] else []
  {
    forall i | 0 <= i < |xs| ensures i == 0 && xs[i] == x && present {
      assert xs[i] in xs && xs[0] in xs;
    }
    if xs != [] {
      assert xs[|xs| - 1] == x;
    }
    if present {
      assert x in xs;
    }
  }
}
