# Offline caching service worker, modelled in Dafny

This project models the service worker of an offline-first web app. The
worker intercepts the app's requests and keeps a versioned cache storage. It
has three handlers:

- **install** opens the cache `next-offline-v1` (`CACHE_NAME`). It then adds
  each of the seven manifest URLs (`URLS_TO_CACHE`) on its own, so a failed
  add is skipped and the install never fails as a whole.
- **activate** deletes every cache whose name is not `CACHE_NAME`.
- **fetch** leaves non-GET requests to the browser. For a GET it works in
  this order:
  - It looks the request up in every cache. A hit is returned and the network
    is not used.
  - On a miss it fetches. A response that is present, has status 200 and type
    `"basic"` is written back into `CACHE_NAME` and returned. Any other
    response is returned without being stored.
  - If the fetch fails, a navigation falls back to whatever `caches.match("/")`
    yields. Any other request gets a 408 plain-text response.

The files:

- `wrappers.dfy` defines `Option`, which stands for JavaScript's `undefined`.
- `http.dfy` defines `Request` and `Response`, keeping only the fields the
  worker reads.
- `cache_store.dfy` models the browser's cache storage (`caches.open`,
  `caches.match`, `cache.put`, `caches.delete`) as functions over
  `Store(names, caches)`. `names` lists the caches in creation order, because
  `caches.match` searches every cache in that order and answers with the
  first entry it finds.
- `service_worker.dfy` has the constants, the fetch handler's decisions
  (`Intercepts`, `WorthCaching`, `IsNavigation`) and each handler's effect as
  a function of the storage before it (`Installed`, `Activated`, `Respond`,
  `AfterFetch`). It also has the class `Worker`, which holds the storage in
  the fields `names` and `storage`:
  - `Install` loops over the manifest.
  - `Activate` loops over the listed cache names.
  - `Fetch` runs the cache-first policy and calls `WriteBack`.

  Each of these methods is proved to produce exactly the state that the
  matching function describes.
- `properties.dfy` proves what the handlers promise, as lemmas over those
  functions.

Whatever lies outside the worker is a parameter of the handler:

- The network: `NetResult`.
- Whether `caches.match` rejects: `Environment.lookupRejects` and
  `Environment.rootLookupRejects`.
- How the write-back ends: `WriteOutcome`.
- Whether `caches.open` rejects during install, and how each `cache.add`
  settles: `openRejects` and `AddOutcome`.

Each handler runs as one sequential step.

### Behaviour worth knowing

- `caches.match` (lines 63 and 102) searches every cache in creation order.
  So an older generation listed before `CACHE_NAME` answers a lookup until
  activate has run (`StaleGenerationShadowsUntilActivate`).
- The offline text sits in a `.catch` on `caches.match("/")` (lines 102-109),
  so it is produced only when that lookup rejects. A plain miss of `"/"`
  resolves to `undefined` (`NavigationMissIsUndefined`). The offline response
  sets no status, so it has the default status 200.

## Model

| member | source | states |
|---|---|---|
| `CacheStore.Open` | public/service-worker.js:18-19 | opening a cache creates it empty at the end of the cache list if absent; every existing cache keeps its contents |
| `CacheStore.Put` | public/service-worker.js:89-91 | after `put` the cache holds the response under the URL; its other entries and every other cache are unchanged |
| `CacheStore.Delete` | public/service-worker.js:48 | deleting a cache removes exactly that name and its entries; the other caches keep their contents and the list stays without repetitions |
| `CacheStore.LookupFound` | public/service-worker.js:63 | a lookup misses exactly when no cache holds the URL, and a hit is the entry of some cache that holds it |
| `CacheStore.LookupFirstHolder` | public/service-worker.js:63 | a lookup answers with the entry of the first cache, in creation order, that holds the URL |
| `CacheStore.LookupOtherUrl` | public/service-worker.js:91 | storing under one URL does not change the lookup of any other URL |
| `CacheStore.DeleteKeepsOtherMatches` | public/service-worker.js:48 | deleting a cache that does not hold a URL keeps the other caches in their order, so a lookup of that URL answers as before |
| `CacheStore.OpenKeepsMatches` | public/service-worker.js:88-89 | opening (and so possibly creating) a cache never changes what a lookup answers |
| `CacheStore.PutThenMatch` | public/service-worker.js:88-91 | after a put of a URL that no cache held, a lookup of that URL finds the stored response |
| `ServiceWorker.AddAll` | public/service-worker.js:23-31 | adding the manifest URLs one by one gives exactly the URLs whose add succeeded as new keys, and leaves every other entry as it was |
| `ServiceWorker.AddAllStored` | public/service-worker.js:24-29 | with distinct URLs, each succeeded add leaves its own response under its URL, whatever the other adds did |
| `ServiceWorker.Activated` | public/service-worker.js:43-52 | after activation only `CACHE_NAME` can remain, with unchanged entries |
| `ServiceWorker.Worker.OpenCache` | public/service-worker.js:18-19 | the storage becomes the store after `caches.open` |
| `ServiceWorker.Worker.PutEntry` | public/service-worker.js:91 | the storage becomes the store after `cache.put` |
| `ServiceWorker.Worker.DeleteCache` | public/service-worker.js:48 | the storage becomes the store after `caches.delete` |
| `ServiceWorker.Worker.Install` | public/service-worker.js:16-37 | the loop over the manifest leaves the storage equal to `Installed` of the old storage: untouched if the open rejects, else `CACHE_NAME` opened and every succeeded add stored |
| `ServiceWorker.Worker.Activate` | public/service-worker.js:40-55 | the loop over `caches.keys()` leaves the storage equal to `Activated` of the old storage: only `CACHE_NAME` survives, with its entries |
| `ServiceWorker.Worker.WriteBack` | public/service-worker.js:88-95 | the write-back stores the response under the URL in `CACHE_NAME`. If the put fails, it only opens the cache. If the open rejects, it changes nothing |
| `ServiceWorker.Worker.Fetch` | public/service-worker.js:58-120 | the handler's reply is `Respond` of the old storage and its new storage is `AfterFetch` of the old storage |
| `ServiceWorkerProperties.NonGetIgnored` | public/service-worker.js:60 | a non-GET request is not intercepted, whatever the storage and network, and storage is unchanged |
| `ServiceWorkerProperties.LookupRejectedFails` | public/service-worker.js:62-63 | if the first lookup rejects, the response promise rejects and nothing is stored |
| `ServiceWorkerProperties.HitServesStored` | public/service-worker.js:63-67 | on a hit the reply is a stored entry, the reply does not depend on network or write-back, and storage is unchanged |
| `ServiceWorkerProperties.MissStoresValidResponse` | public/service-worker.js:73-97 | on a miss a 200 "basic" response is returned for every write-back outcome. After a completed write-back, `CACHE_NAME` is its old entries (or empty if new) with the response under the URL, and every other cache is unchanged |
| `ServiceWorkerProperties.WriteBackThenHit` | public/service-worker.js:63-67 | after a completed write-back the next fetch of the same request is a hit on the stored response and changes nothing |
| `ServiceWorkerProperties.WriteBackKeepsOtherLookups` | public/service-worker.js:88-95 | a fetch never changes what a lookup of any other URL answers |
| `ServiceWorkerProperties.MissPassesThroughOthers` | public/service-worker.js:76-82 | on a miss an absent, non-200 or non-"basic" response is returned as-is and storage is unchanged |
| `ServiceWorkerProperties.DroppedWriteBack` | public/service-worker.js:88-97 | a write-back that does not complete still returns the fetched response. A rejected open leaves storage unchanged; a failed put changes no lookup and no existing cache |
| `ServiceWorkerProperties.SubresourceFailureIs408` | public/service-worker.js:112-116 | a failed non-navigation fetch replies status 408, body "Network error happened", text/plain, and stores nothing |
| `ServiceWorkerProperties.NavigationFailureFallsBack` | public/service-worker.js:101-109 | a failed navigation replies with the lookup of "/". Only if that lookup rejects does it reply with the offline text at status 200. Nothing is stored |
| `ServiceWorkerProperties.NavigationMissIsUndefined` | public/service-worker.js:102 | a failed navigation when no cache holds "/" replies `undefined`, not the offline text |
| `ServiceWorkerProperties.ActivateIdempotent` | public/service-worker.js:43-52 | activating twice equals activating once. At most one cache remains, and `CACHE_NAME` survives exactly when it existed |
| `ServiceWorkerProperties.ActivatedMatchesCurrentOnly` | public/service-worker.js:43-52 | after activation a lookup answers from `CACHE_NAME` alone |
| `ServiceWorkerProperties.StaleGenerationShadowsUntilActivate` | public/service-worker.js:63 | for any store, an older generation listed before `CACHE_NAME` that is the first holder of a URL answers a lookup ahead of `CACHE_NAME`; after activation `CACHE_NAME` answers |
| `ServiceWorkerProperties.ManifestDistinct` | public/service-worker.js:4-13 | the manifest URLs are pairwise different |
| `ServiceWorkerProperties.InstallOpenRejected` | public/service-worker.js:33-35 | if opening the cache rejects, install changes nothing |
| `ServiceWorkerProperties.InstallStoresSucceeded` | public/service-worker.js:23-31 | every manifest URL whose add succeeded is in `CACHE_NAME` with its response, regardless of failures on others |
| `ServiceWorkerProperties.InstallTouchesOnlyManifest` | public/service-worker.js:18-31 | install gives `CACHE_NAME` exactly the succeeded URLs as new keys and keeps its other entries. Every other cache is unchanged |
| `ServiceWorkerProperties.InstallFromScratch` | public/service-worker.js:4-31 | starting without `CACHE_NAME` and with every add succeeding, `CACHE_NAME` holds exactly the seven manifest URLs |
| `ServiceWorkerProperties.InstalledManifestIsServed` | public/service-worker.js:16-67 | after a fully successful install and an activation, a GET for any manifest URL is answered from the cache with that URL's installed response |

## Left out

- Promise scheduling is not modelled. Each handler is one sequential step. Concurrent fetch events, the write-back landing after the reply, and a write lost when the worker stops are not modelled. A lost write is covered only as a write-back outcome (`PutRejected`, `OpenRejected`).
- The browser's handling of the reply is not modelled. It turns `respondWith(undefined)` and a rejected promise into a network error for the page. The model stops at the reply value (`Resolved(None)`, `Rejected`).
- `caches.keys()` and `caches.delete` rejecting during activate are not modelled. Activate's deletions always succeed.
- `cache.add` is an opaque outcome per URL. Its internal fetch, and its rejection of non-2xx responses, are not modelled.
- URL resolution is not modelled. Manifest paths and request URLs are compared as plain strings, with no resolution against the worker's origin. The request-matching options of `caches.match` (`ignoreSearch`, `Vary`) are also left out.
- Request and response streams are immutable values, so `request.clone()` and `response.clone()` are the identity.
- Headers other than the synthesized `Content-Type`, and `statusText`, are not modelled.
- Console logging is not modelled. This includes the second install listener (public/service-worker.js:122-125), which only logs.
- src/App.js and src/QrScanner.jsx are not part of this model. They are the app's UI, its storage and its camera scanner, which sit outside the worker.
