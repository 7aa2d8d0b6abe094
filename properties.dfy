/**
 * What the three handlers promise, stated over the functions that give
 * their effect: the fetch handler's cache-first policy, its write-back
 * filter and its fallbacks; the activate handler's cleanup; the install
 * handler's independent adds.
 */
module ServiceWorkerProperties {
  import opened Wrappers
  import opened Http
  import opened CacheStore
  import opened ServiceWorker

  // ---------------------------------------------------------------------
  // fetch
  // ---------------------------------------------------------------------

  /**
   * A request that is not a GET is left to the browser whatever the storage
   * and the network hold, and the storage does not change.
   */
  lemma NonGetIgnored(s: Store, other: Store, req: Request, env: Environment, otherEnv: Environment)
    requires Valid(s) && req.httpMethod != "GET"
    ensures Respond(s, req, env) == NotIntercepted
    ensures Respond(other, req, otherEnv) == Respond(s, req, env)
    ensures AfterFetch(s, req, env) == s
  {
  }

  /** If looking the request up rejects, `respondWith` gets a rejected promise and nothing is stored. */
  lemma LookupRejectedFails(s: Store, req: Request, env: Environment)
    requires Valid(s) && Intercepts(req) && env.lookupRejects
    ensures Respond(s, req, env) == Rejected
    ensures AfterFetch(s, req, env) == s
  {
  }

  /**
   * On a hit the answer is the entry some cache holds for the URL, the
   * network is not consulted (the answer is the same whatever the network
   * and the write-back would do) and the storage does not change.
   */
  lemma HitServesStored(s: Store, req: Request, env: Environment, network: NetResult, w: WriteOutcome, rootRejects: bool)
    requires Valid(s) && Intercepts(req) && !env.lookupRejects && Match(s, req.url).Some?
    ensures exists n :: n in s.names && Holds(s.caches, n, req.url)
                        && Respond(s, req, env) == Resolved(Some(s.caches[n][req.url]))
    ensures Respond(s, req, env.(network := network, writeBack := w, rootLookupRejects := rootRejects)) == Respond(s, req, env)
    ensures AfterFetch(s, req, env) == s
  {
    LookupFound(s.names, s.caches, req.url);
  }

  /**
   * On a miss, a fetched response with status 200 and type "basic" is
   * returned as it came, however the write-back ends; when the write-back
   * completes it is stored in `CACHE_NAME` under the request's URL, and no
   * other cache and no other entry changes.
   */
  lemma MissStoresValidResponse(s: Store, req: Request, env: Environment, response: Response)
    requires Valid(s) && Intercepts(req) && !env.lookupRejects && Match(s, req.url).None?
    requires env.network == Delivered(Some(response))
    requires response.status == 200 && response.responseType == "basic"
    ensures forall w :: Respond(s, req, env.(writeBack := w)) == Resolved(Some(response))
    ensures env.writeBack == Stored ==>
              var r := AfterFetch(s, req, env);
              && r.caches.Keys == s.caches.Keys + {CACHE_NAME}
              && r.caches[CACHE_NAME] ==
                   (if CACHE_NAME in s.caches then s.caches[CACHE_NAME] else map[])[req.url := response]
              && (forall n :: n in s.caches && n != CACHE_NAME ==> r.caches[n] == s.caches[n])
  {
  }

  /**
   * A completed write-back makes the next fetch of the same request a hit
   * on the stored response, whatever the network does then, and that fetch
   * changes nothing.
   */
  lemma WriteBackThenHit(s: Store, req: Request, env: Environment, response: Response, next: Environment)
    requires Valid(s) && Intercepts(req) && !env.lookupRejects && Match(s, req.url).None?
    requires env.network == Delivered(Some(response)) && WorthCaching(env.network.response)
    requires env.writeBack == Stored && !next.lookupRejects
    ensures Respond(AfterFetch(s, req, env), req, next) == Resolved(Some(response))
    ensures AfterFetch(AfterFetch(s, req, env), req, next) == AfterFetch(s, req, env)
  {
    var handle := Open(s, CACHE_NAME);
    OpenKeepsMatches(s, CACHE_NAME, req.url);
    PutThenMatch(handle, CACHE_NAME, req.url, response);
  }

  /**
   * A write-back that is written into `CACHE_NAME` leaves every other URL's
   * lookup as it was.
   */
  lemma WriteBackKeepsOtherLookups(s: Store, req: Request, env: Environment, url: Url)
    requires Valid(s) && url != req.url
    ensures Match(AfterFetch(s, req, env), url) == Match(s, url)
  {
    OpenKeepsMatches(s, CACHE_NAME, url);
    var handle := Open(s, CACHE_NAME);
    if env.network.Delivered? && env.network.response.Some? {
      LookupOtherUrl(handle.names, handle.caches, CACHE_NAME, req.url, env.network.response.value, url);
    }
  }

  /**
   * On a miss, a response that is absent, not status 200 or not of type
   * "basic" is returned unchanged and nothing is stored.
   */
  lemma MissPassesThroughOthers(s: Store, req: Request, env: Environment, response: Option<Response>)
    requires Valid(s) && Intercepts(req) && !env.lookupRejects && Match(s, req.url).None?
    requires env.network == Delivered(response)
    requires response.None? || response.value.status != 200 || response.value.responseType != "basic"
    ensures Respond(s, req, env) == Resolved(response)
    ensures AfterFetch(s, req, env) == s
  {
  }

  /**
   * A write-back that does not complete still returns the fetched response;
   * if opening the cache rejects, the storage is unchanged, and if only the
   * `put` fails, the opened cache may be new and empty but every lookup
   * answers as before.
   */
  lemma DroppedWriteBack(s: Store, req: Request, env: Environment, response: Response, url: Url)
    requires Valid(s) && Intercepts(req) && !env.lookupRejects && Match(s, req.url).None?
    requires env.network == Delivered(Some(response)) && env.writeBack != Stored
    ensures Respond(s, req, env) == Resolved(Some(response))
    ensures env.writeBack == OpenRejected ==> AfterFetch(s, req, env) == s
    ensures Match(AfterFetch(s, req, env), url) == Match(s, url)
    ensures forall n :: n in s.caches ==> AfterFetch(s, req, env).caches[n] == s.caches[n]
  {
    OpenKeepsMatches(s, CACHE_NAME, url);
  }

  /**
   * A failed fetch of anything but a navigation answers status 408 with the
   * plain-text body "Network error happened", and stores nothing.
   */
  lemma SubresourceFailureIs408(s: Store, req: Request, env: Environment)
    requires Valid(s) && Intercepts(req) && !env.lookupRejects && Match(s, req.url).None?
    requires env.network == TransportFailure && !IsNavigation(req)
    ensures Respond(s, req, env).Resolved? && Respond(s, req, env).response.Some?
    ensures var r := Respond(s, req, env).response.value;
            r.status == 408 && r.body == "Network error happened" && r.contentType == Some("text/plain")
    ensures AfterFetch(s, req, env) == s
  {
  }

  /**
   * A failed navigation answers whatever `caches.match("/")` yields; only
   * if that lookup rejects is the answer the offline text, with the default
   * status 200. Nothing is stored.
   */
  lemma NavigationFailureFallsBack(s: Store, req: Request, env: Environment)
    requires Valid(s) && Intercepts(req) && !env.lookupRejects && Match(s, req.url).None?
    requires env.network == TransportFailure && IsNavigation(req)
    ensures !env.rootLookupRejects ==> Respond(s, req, env) == Resolved(Match(s, "/"))
    ensures env.rootLookupRejects ==>
              Respond(s, req, env) == Resolved(Some(Response(200, "default", "You are offline. Please check your connection.", Some("text/plain"))))
    ensures AfterFetch(s, req, env) == s
  {
  }

  /**
   * When no cache holds "/" and the lookup of "/" does not reject, a failed
   * navigation answers `undefined`, not the offline text.
   */
  lemma NavigationMissIsUndefined(s: Store, req: Request, env: Environment)
    requires Valid(s) && Intercepts(req) && !env.lookupRejects && Match(s, req.url).None?
    requires env.network == TransportFailure && IsNavigation(req) && !env.rootLookupRejects
    requires forall n :: n in s.caches ==> "/" !in s.caches[n]
    ensures Respond(s, req, env) == Resolved(None)
  {
    LookupFound(s.names, s.caches, "/");
  }

  // ---------------------------------------------------------------------
  // activate
  // ---------------------------------------------------------------------

  /**
   * Activation keeps `CACHE_NAME` with its entries and nothing else, and a
   * second activation changes nothing more.
   */
  lemma ActivateIdempotent(s: Store)
    requires Valid(s)
    ensures Activated(Activated(s)) == Activated(s)
    ensures |Activated(s).caches| <= 1
    ensures CACHE_NAME in s.caches <==> CACHE_NAME in Activated(s).caches
  {
    var r := Activated(s);
    assert r.caches.Keys <= {CACHE_NAME};
  }

  /** After activation a lookup consults `CACHE_NAME` alone. */
  lemma ActivatedMatchesCurrentOnly(s: Store, url: Url)
    requires Valid(s)
    ensures Match(Activated(s), url) ==
              if Holds(s.caches, CACHE_NAME, url) then Some(s.caches[CACHE_NAME][url]) else None
  {
    var r := Activated(s);
    if CACHE_NAME in s.caches {
      assert r.names[0] == CACHE_NAME && r.names[1..] == [];
      assert Lookup(r.names[1..], r.caches, url) == None;
    }
  }

  /**
   * Until activation, an older generation listed before `CACHE_NAME` that
   * holds the URL answers a lookup ahead of `CACHE_NAME`; after activation
   * `CACHE_NAME` answers.
   */
  lemma StaleGenerationShadowsUntilActivate(s: Store, url: Url, i: nat, j: nat)
    requires Valid(s) && i < j < |s.names|
    requires s.names[i] != CACHE_NAME && s.names[j] == CACHE_NAME
    requires Holds(s.caches, s.names[i], url) && Holds(s.caches, CACHE_NAME, url)
    requires forall k :: 0 <= k < i ==> !Holds(s.caches, s.names[k], url)
    ensures Match(s, url) == Some(s.caches[s.names[i]][url])
    ensures Match(Activated(s), url) == Some(s.caches[CACHE_NAME][url])
  {
    LookupFirstHolder(s.names, s.caches, url, i);
    ActivatedMatchesCurrentOnly(s, url);
  }

  // ---------------------------------------------------------------------
  // install
  // ---------------------------------------------------------------------

  lemma ManifestDistinct()
    ensures Distinct(URLS_TO_CACHE)
  {
  }

  /** If `caches.open` rejects, install changes nothing. */
  lemma InstallOpenRejected(s: Store, outs: seq<AddOutcome>)
    requires Valid(s) && |outs| == |URLS_TO_CACHE|
    ensures Installed(s, true, outs) == s
  {
  }

  /**
   * Every manifest URL whose add succeeded is in `CACHE_NAME` with its own
   * response, whatever happened to the other URLs.
   */
  lemma InstallStoresSucceeded(s: Store, outs: seq<AddOutcome>, i: nat)
    requires Valid(s) && |outs| == |URLS_TO_CACHE| && i < |outs| && outs[i].Added?
    ensures CACHE_NAME in Installed(s, false, outs).caches
    ensures URLS_TO_CACHE[i] in Installed(s, false, outs).caches[CACHE_NAME]
    ensures Installed(s, false, outs).caches[CACHE_NAME][URLS_TO_CACHE[i]] == outs[i].response
  {
    ManifestDistinct();
    var handle := Open(s, CACHE_NAME);
    AddAllStored(handle.caches[CACHE_NAME], URLS_TO_CACHE, outs, i);
  }

  /**
   * Install touches only `CACHE_NAME`: it gains exactly the URLs whose add
   * succeeded, its other entries stay as they were, and every other cache
   * is unchanged.
   */
  lemma InstallTouchesOnlyManifest(s: Store, outs: seq<AddOutcome>)
    requires Valid(s) && |outs| == |URLS_TO_CACHE|
    ensures var r := Installed(s, false, outs);
            var before := if CACHE_NAME in s.caches then s.caches[CACHE_NAME] else map[];
            && r.caches.Keys == s.caches.Keys + {CACHE_NAME}
            && r.caches[CACHE_NAME].Keys == before.Keys + Succeeded(URLS_TO_CACHE, outs)
            && (forall u :: u in before && u !in Succeeded(URLS_TO_CACHE, outs) ==> r.caches[CACHE_NAME][u] == before[u])
            && (forall n :: n in s.caches && n != CACHE_NAME ==> r.caches[n] == s.caches[n])
  {
  }

  /** A list without repetitions has as many elements as it has members. */
  lemma {:induction false} DistinctCount(xs: seq<Url>)
    requires Distinct(xs)
    ensures |set u | u in xs| == |xs|
  {
    if xs != [] {
      var rest := xs[1..];
      forall i, j | 0 <= i < j < |rest| ensures rest[i] != rest[j] {
        assert rest[i] == xs[i + 1] && rest[j] == xs[j + 1];
      }
      DistinctCount(rest);
      forall k | 0 <= k < |rest| ensures rest[k] != xs[0] {
        assert rest[k] == xs[k + 1];
      }
      assert (set u | u in xs) == (set u | u in rest) + {xs[0]};
    }
  }

  /**
   * Installing into a storage without `CACHE_NAME`, with every add
   * succeeding, leaves exactly the manifest URLs in it, seven entries.
   */
  lemma InstallFromScratch(s: Store, outs: seq<AddOutcome>)
    requires Valid(s) && CACHE_NAME !in s.caches
    requires |outs| == |URLS_TO_CACHE| && forall i :: 0 <= i < |outs| ==> outs[i].Added?
    ensures Installed(s, false, outs).caches[CACHE_NAME].Keys == set u | u in URLS_TO_CACHE
    ensures |Installed(s, false, outs).caches[CACHE_NAME]| == 7
  {
    forall u | u in URLS_TO_CACHE ensures u in Succeeded(URLS_TO_CACHE, outs) {
      var i :| 0 <= i < |URLS_TO_CACHE| && URLS_TO_CACHE[i] == u;
      assert outs[i].Added?;
    }
    ManifestDistinct();
    DistinctCount(URLS_TO_CACHE);
  }

  /**
   * After an install whose adds all succeed followed by an activation, the
   * fetch handler serves every manifest URL from the cache.
   */
  lemma InstalledManifestIsServed(s: Store, outs: seq<AddOutcome>, req: Request, env: Environment, i: nat)
    requires Valid(s) && |outs| == |URLS_TO_CACHE| && forall k :: 0 <= k < |outs| ==> outs[k].Added?
    requires i < |URLS_TO_CACHE| && req == Request("GET", URLS_TO_CACHE[i], req.mode) && !env.lookupRejects
    ensures Respond(Activated(Installed(s, false, outs)), req, env) == Resolved(Some(outs[i].response))
  {
    InstallStoresSucceeded(s, outs, i);
  }
}
