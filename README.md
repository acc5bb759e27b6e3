# Notekeeper service worker — a verified model

This project models the service worker of the notekeeper web application
(`scripts/public/sw.js`): how it fills, prunes and consults the browser's
Cache Storage, and how it answers each fetch event.

- **install** opens `notekeeper-static-v1` and adds the thirteen app-shell files with `cache.addAll`.
- **activate** deletes every cache except `notekeeper-static-v1` and `notekeeper-notes-v1`.
- **fetch** classifies each request and then answers it as follows:
  - a request from another origin is left to the browser;
  - while offline, a `POST`, `PUT`, `DELETE` or `PATCH` gets a 503 HTML warning;
  - a path starting with `/note/` is network-first. An ok response is stored in `notekeeper-notes-v1`. On failure the worker tries a cache match and then the "note" notice;
  - `/documents` and `/` are handled the same way, except that they fall back to the "list" notice;
  - anything else is cache-first, and a fetched response is never stored.
- `offlineFallback(type)` builds a 200 `text/html` notice. Any type other than `note` gets the list notice.

The project has three modules:

- `Http` (`http.dfy`): requests (method and path), responses (status, body, Content-Type, `Ok()` = status 200-299), the network outcome (`Fetched(resp)` or `Failed`) and what the page sees (`NotHandled`, `Respond(resp)`, `NetworkError`).
- `CacheStorage` (`cache_storage.dfy`): the Cache Storage as a value `Store`, holding the cache names in creation order and a map from each name to its entries (path to response). Pure functions give `caches.open`, `cache.put`, `caches.delete`, `cache.addAll` and `caches.match`. The class `Caches` holds the same state in fields that its methods update in place, and each method is proved to move that state exactly as its function says. The Cache API rules the worker depends on come from the Service Workers specification:
  - `put` takes only a GET request with a response that is not partial (206);
  - `addAll` also requires every response to be ok, and is all-or-nothing;
  - `match` answers GET requests only, from the first cache in creation order that holds the key;
  - `open` appends a missing cache.
- `ServiceWorker` (`service_worker.dfy`): the constants and `OfflineFallback`. Then the pure specification of the handlers: `Classify`, `NetworkFirst`, `CacheFirst`, `HandleFetch` (one fetch event gives a `Step`, i.e. the page's outcome plus the caches afterwards), `Installed` and `Activated`. Then the imperative handlers `OnInstall`, `OnActivate` and `OnFetch`, which act on a `Caches` object and are proved equal to that specification. Last come the lemmas that state the caching policy.

The browser is reduced to inputs:

- origin equality is a boolean;
- `navigator.onLine` is a boolean;
- the network's answer to a fetch event is a `NetOutcome`;
- the network seen by `addAll` during install is a function from request to `NetOutcome`.

One consequence of the code, proved as `RootOfflineServesInstallCopy`: `/` is both an app-shell file and a network-first route. Fresh copies of `/` go to `notekeeper-notes-v1`, but `notekeeper-static-v1` was created first and `caches.match` takes the first cache that holds the key. So while offline, `/` is answered with the copy stored at install time, even after an online visit of `/` has stored a newer copy in `notekeeper-notes-v1`.

## Model

| member | source | states |
|---|---|---|
| CacheStorage.Without | scripts/public/sw.js:36-38 | the filtered names are exactly the listed names outside the excluded set, no more than before, and stay duplicate-free |
| CacheStorage.WithoutKeepsOrder | scripts/public/sw.js:36-38 | two names the filter keeps come in the same order as in the original list |
| CacheStorage.WithoutKeepsOrderBack | scripts/public/sw.js:36-38 | in a duplicate-free list, two names that are kept and came in one order still come in that order |
| CacheStorage.MatchIn | scripts/public/sw.js:81 | no result exactly when no listed cache holds the key; otherwise the response held by the first cache, in creation order, that holds it |
| CacheStorage.MatchFindsHolder | scripts/public/sw.js:81 | a key held by a listed cache is always found |
| CacheStorage.MatchFindsOnlyHolder | scripts/public/sw.js:81 | a key held by a single cache is answered with that cache's response |
| CacheStorage.PutThenMatch | scripts/public/sw.js:76-81 | after opening a cache and putting a GET response there, a match returns that response when no other cache holds the key |
| CacheStorage.Opened | scripts/public/sw.js:25 | opening keeps every existing cache and the order of their names; a missing cache is added empty; well-formedness is kept |
| CacheStorage.Stored | scripts/public/sw.js:77 | a put of a GET request with a non-206 response stores the response under the path and adds no other key; a refused one changes nothing; other caches and other entries are untouched |
| CacheStorage.Deleted | scripts/public/sw.js:38 | the named cache is gone; every other cache keeps its contents; the remaining names keep their relative order |
| CacheStorage.PutAll | scripts/public/sw.js:26 | the entries gain exactly the requests' paths; entries for other paths are unchanged |
| CacheStorage.PutAllStores | scripts/public/sw.js:26 | a request whose path no later request repeats leaves its own fetched response in the cache |
| CacheStorage.Filled | scripts/public/sw.js:26 | when every fetch is ok and acceptable, the cache gains exactly the requests' paths, each path no later request repeats holds its own fetched response, and entries for other paths are kept; otherwise nothing changes; other caches are untouched |
| CacheStorage.FilledStoresEach | scripts/public/sw.js:26 | with pairwise different paths, every request's path holds that request's fetched response |
| CacheStorage.RetainedWellFormed | scripts/public/sw.js:36-38 | keeping only some caches leaves a well-formed store whose names are all kept ones |
| CacheStorage.RetainedKeepsOrder | scripts/public/sw.js:36-38 | two kept caches are in the same order after retention as before, in both directions |
| CacheStorage.RetainedTwice | scripts/public/sw.js:32-41 | keeping the same caches a second time changes nothing |
| CacheStorage.DeletedAllBut | scripts/public/sw.js:36-38 | deleting, one by one, every listed cache outside a set leaves exactly the caches of that set |
| CacheStorage.Caches.Keys | scripts/public/sw.js:34 | the cache names, duplicate-free and exactly the existing caches |
| CacheStorage.Caches.Open | scripts/public/sw.js:25 | the new state is `Opened` of the old one |
| CacheStorage.Caches.Put | scripts/public/sw.js:77 | the new state is `Stored` of the old one |
| CacheStorage.Caches.Delete | scripts/public/sw.js:38 | the new state is `Deleted` of the old one; the result says whether the cache existed |
| CacheStorage.Caches.Match | scripts/public/sw.js:81 | the loop over caches in creation order returns what `MatchIn` specifies, and nothing for a non-GET request |
| CacheStorage.Caches.AddAll | scripts/public/sw.js:26 | fetches all requests, then stores all responses or none; reports success exactly when all were acceptable |
| ServiceWorker.Resolve | scripts/public/sw.js:6-20 | a `./`-relative file name becomes an absolute path one character shorter; any other name is kept |
| ServiceWorker.ResolveInjective | scripts/public/sw.js:6-20 | two `./`-relative names with the same resolved path are the same name |
| ServiceWorker.ShellFilesDistinct | scripts/public/sw.js:6-20 | the thirteen shell files are pairwise different and all `./`-relative |
| ServiceWorker.StaticRequests | scripts/public/sw.js:6-26 | one GET per shell file, for its resolved path; the paths are absolute and pairwise different, and the first is `/` |
| ServiceWorker.OfflineFallback | scripts/public/sw.js:111-120 | status 200, `text/html`; the note message exactly for type `note`, the list message for every other type |
| ServiceWorker.GetIsNotMutating | scripts/public/sw.js:54 | GET is not among the blocked methods |
| ServiceWorker.OnInstall | scripts/public/sw.js:23-29 | opens the static cache and adds the shell to it; succeeds exactly when every shell fetch is acceptable |
| ServiceWorker.OnActivate | scripts/public/sw.js:32-42 | deleting the filtered keys one by one leaves exactly `Activated` of the old caches |
| ServiceWorker.RespondNetworkFirst | scripts/public/sw.js:72-83 | the in-place network-first branch yields the outcome and caches that `NetworkFirst` specifies |
| ServiceWorker.RespondCacheFirst | scripts/public/sw.js:105-108 | the cache-first branch reads the caches and yields the outcome `CacheFirst` specifies, with no write |
| ServiceWorker.OnFetch | scripts/public/sw.js:45-109 | one fetch event, in place, equals `HandleFetch` on the old caches |
| ServiceWorker.CrossOriginIgnored | scripts/public/sw.js:48-51 | a cross-origin request is not handled and no cache changes |
| ServiceWorker.OfflineMutationRefused | scripts/public/sw.js:53-68 | offline, any POST/PUT/DELETE/PATCH, whatever its path, gets status 503 with the offline warning as `text/html`, and no cache changes |
| ServiceWorker.RoutePrecedence | scripts/public/sw.js:71-108 | the `/note/` prefix wins; `/documents` and `/` are the list route exactly; everything else is a static asset |
| ServiceWorker.RouteExamples | scripts/public/sw.js:71-88 | `/note/42` is a note page; `/note`, `/notes` and `/documents/x` are static; offline DELETE of a note and POST to `/` are blocked |
| ServiceWorker.NetworkFirstStoresOk | scripts/public/sw.js:72-96 | on a network-first route an ok response is returned; when `put` accepts it, it is stored under its path in the notes cache, whose keys become its old keys (none if it was new) plus that path; otherwise the notes cache is only opened; no other cache or entry changes |
| ServiceWorker.NetworkFirstPassesNotOk | scripts/public/sw.js:74-80 | a non-ok response is returned unchanged and nothing is stored |
| ServiceWorker.NetworkFirstOffline | scripts/public/sw.js:81-99 | a failed fetch is answered from any cache, else with the route's notice (status 200); nothing is written |
| ServiceWorker.CacheFirstHit | scripts/public/sw.js:105-108 | on a static asset, a cache hit is returned whatever the network would answer |
| ServiceWorker.CacheFirstMiss | scripts/public/sw.js:105-108 | on a miss the network's response is returned and never stored; a failed fetch is a network error |
| ServiceWorker.FetchWritesOnlyNotes | scripts/public/sw.js:45-109 | a fetch event keeps the caches well-formed, adds at most the notes cache and leaves every other cache and the order of names unchanged; it writes only after an ok network-first fetch |
| ServiceWorker.VisitedPageCached | scripts/public/sw.js:71-82 | when no cache other than the notes cache holds the page's path, after an ok network-first GET a match of that page finds exactly the fetched response |
| ServiceWorker.VisitedPageAvailableOffline | scripts/public/sw.js:71-82 | when no cache other than the notes cache holds the page's path, a page fetched ok while online is answered with that response when a later fetch fails |
| ServiceWorker.InstallCachesShell | scripts/public/sw.js:6-28 | after install the static cache exists; when all fetches are acceptable it holds every shell file and keeps its entries for other paths, and otherwise it is only opened; other caches are unchanged |
| ServiceWorker.InstallStoresShell | scripts/public/sw.js:6-28 | after a successful install, each shell request's path holds the network's response to that request |
| ServiceWorker.InstalledShellHoldsRoot | scripts/public/sw.js:6-28 | after a successful install a match of `/` succeeds |
| ServiceWorker.InstalledShellServesRootOffline | scripts/public/sw.js:88-99 | after a successful install, an offline fetch of `/` is answered from the cache |
| ServiceWorker.InstalledFromEmpty | scripts/public/sw.js:23-28 | installing into empty storage creates only the static cache, holding `/` |
| ServiceWorker.RootOfflineServesInstallCopy | scripts/public/sw.js:88-99 | starting from empty caches, after install and an ok online visit of `/`, an offline fetch of `/` returns the install-time copy |
| ServiceWorker.ActivateKeepsCurrent | scripts/public/sw.js:32-41 | afterwards only the two current caches can exist, each kept one has its contents unchanged, the two keep their relative order, the store is well-formed, and activating again changes nothing |
| ServiceWorker.UnknownKindGetsListNotice | scripts/public/sw.js:111-116 | an unknown fallback type gives the list notice |

`Classify`, `NetworkFirst`, `CacheFirst`, `HandleFetch`, `Installed`, `Activated` and `Lookup` are the specification functions. The handlers are proved against them, and the lemmas above state what they mean.

## Left out

- `scripts/public/app-notekeeper.js` is not part of this model. It is audio-recording glue over browser media, DOM and file APIs, with no logic of its own worth specifying.
- The `cache.put` calls at sw.js:77 and 94 are not awaited, so the response can reach the page before the write lands. The model applies the write within the event, and does not model that race.
- `self.skipWaiting()`, `self.clients.claim()`, the promise mechanics of `event.waitUntil` and `event.respondWith`, and `response.clone()` are left out. They have no effect on the cached data.
- If install's `addAll` rejects, the browser discards the worker. The model only reports `installed == false`, with the static cache opened and left as it was.
- The deletes in activate run concurrently under `Promise.all`. The model runs them one after another in key order, which gives the same final state.
- URL parsing is left out. Origin equality is an input. A request is its method plus its URL path, and the path is the cache key. The real Cache API keys by the full URL, including the query, and honours `Vary`; neither is modelled.
- `cache.addAll` rejects a list in which two requests share a key; `PutAll` and `Filled` instead keep the last response for that key. The shell list has no duplicates (`ShellFilesDistinct`), so install is unaffected.
- `cache.put` and `cache.addAll` also reject a response whose `Vary` header is `*`; headers are not modelled.
- Responses carry only status, body and Content-Type. Other headers, body streams and opaque responses are left out.
- The shell files are resolved against `/`, on the assumption that the worker script is served from the site root.
- The method is taken as the browser reports it. Browsers upper-case standard methods but not `PATCH`, so a lower-case `patch` is not blocked offline; the model agrees, because it compares strings exactly.
- ServiceWorker.OfflineFallback: a type naming a property inherited from `Object.prototype` (such as `toString`) would give a non-message value in the source. The model treats it as an unknown type. The worker only ever passes `note` and `list`.
- Queuing offline mutations for later replay exists only as a comment in the source (sw.js:55-57) and is not modelled.
