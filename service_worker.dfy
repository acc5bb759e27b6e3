/** The notekeeper service worker: its install, activate and fetch handlers
    and the offline fallback pages, over the Cache Storage of `CacheStorage`.

    The pure functions (`Classify`, `HandleFetch`, `Installed`, `Activated`)
    say what one event does to a `Store`; the methods `OnInstall`, `OnActivate`
    and `OnFetch` do it in place on a `Caches` object and are proved to agree
    with them. The lemmas at the end state the worker's caching policy.

    The browser is reduced to inputs: whether the request's origin is the
    worker's own, `navigator.onLine`, and what the network answers (`net`). */
module ServiceWorker {

  import opened Http
  import opened CacheStorage

  const CACHE_VERSION := "v1"
  const STATIC_CACHE := "notekeeper-static-" + CACHE_VERSION
  const NOTES_CACHE := "notekeeper-notes-" + CACHE_VERSION

  /** The app shell, relative to the worker's script. */
  const STATIC_FILES: seq<string> := [
    "./",
    "./bootstrap.5.3.3.min.css",
    "./bootstrap.5.3.3.min.js",
    "./htmx.2.0.7.min.js",
    "./ws.2.0.1.js",
    "./debug.2.0.1.js",
    "./loading-states.2.0.1.js",
    "./morphdom-esm.2.7.4.js",
    "./app-notekeeper.js",
    "./notes.css",
    "./icons/icon-192.png",
    "./icons/icon-512.png",
    "./manifest.json"
  ]

  /** The directory the worker's script is served from; relative URLs resolve against it. */
  const SCOPE := "/"

  const MUTATING_METHODS: seq<string> := ["POST", "PUT", "DELETE", "PATCH"]
  const NOTE_PREFIX := "/note/"
  const HTML := "text/html"

  const OFFLINE_WARNING := "<div class=\"alert alert-warning\">You are offline. Changes cannot be saved.</div>"
  const NOTE_UNAVAILABLE := "<div class=\"alert alert-info m-3\">This note is not available offline yet. View a note while online to cache it.</div>"
  const LIST_UNAVAILABLE := "<div class=\"alert alert-info m-3\">Your notes list is not available offline. Please connect to the internet.</div>"

  /** The answer to a mutation attempted while offline. */
  const OFFLINE_RESPONSE := Response(503, OFFLINE_WARNING, HTML)

  /** Whether a file name is written relative to the worker's directory. */
  predicate Relative(f: string) {
    |f| >= 2 && f[0] == '.' && f[1] == '/'
  }

  /** A `./`-relative file name resolved against the worker's directory; any
      other name is taken as it is. */
  function Resolve(f: string): (path: string)
    ensures Relative(f) ==> |path| == |f| - 1 && path[0] == '/'
    ensures !Relative(f) ==> path == f
  {
    if Relative(f) then SCOPE + f[2..] else f
  }

  /** Different `./`-relative names resolve to different paths. */
  lemma ResolveInjective(f: string, g: string)
    requires Relative(f) && Relative(g) && Resolve(f) == Resolve(g)
    ensures f == g
  {
    assert f == f[..2] + f[2..] && g == g[..2] + g[2..];
    assert f[2..] == Resolve(f)[1..] && g[2..] == Resolve(g)[1..];
  }

  lemma ShellFileShapes()
    ensures |STATIC_FILES| == 13
    ensures |STATIC_FILES[0]| == 2 && |STATIC_FILES[1]| == 25 && |STATIC_FILES[2]| == 24
    ensures |STATIC_FILES[3]| == 19 && |STATIC_FILES[4]| == 13 && |STATIC_FILES[5]| == 16
    ensures |STATIC_FILES[6]| == 25 && |STATIC_FILES[7]| == 23 && |STATIC_FILES[8]| == 19
    ensures |STATIC_FILES[9]| == 11 && |STATIC_FILES[10]| == 20 && |STATIC_FILES[11]| == 20
    ensures |STATIC_FILES[12]| == 15
    ensures STATIC_FILES[1][2] != STATIC_FILES[6][2] && STATIC_FILES[3][2] != STATIC_FILES[8][2]
    ensures STATIC_FILES[10][13] != STATIC_FILES[11][13]
    ensures forall i :: 0 <= i < |STATIC_FILES| ==> Relative(STATIC_FILES[i])
  {
  }

  /** Different `./`-relative names in a list resolve to different paths. */
  lemma ResolvedDistinct(fs: seq<string>)
    requires Distinct(fs) && forall i :: 0 <= i < |fs| ==> Relative(fs[i])
    ensures forall i, j :: 0 <= i < j < |fs| ==> Resolve(fs[i]) != Resolve(fs[j])
  {
    forall i, j | 0 <= i < j < |fs| ensures Resolve(fs[i]) != Resolve(fs[j]) {
      if Resolve(fs[i]) == Resolve(fs[j]) {
        ResolveInjective(fs[i], fs[j]);
      }
    }
  }

  /** The app shell lists every file once, each relative to the worker. */
  lemma ShellFilesDistinct()
    ensures Distinct(STATIC_FILES)
    ensures forall i :: 0 <= i < |STATIC_FILES| ==> Relative(STATIC_FILES[i])
  {
    ShellFileShapes();
    forall i, j | 0 <= i < j < |STATIC_FILES| ensures STATIC_FILES[i] != STATIC_FILES[j] {
      if |STATIC_FILES[i]| == |STATIC_FILES[j]| {
        assert (i, j) in {(1, 6), (3, 8), (10, 11)};
      }
    }
  }

  /** The requests `cache.addAll(STATIC_FILES)` makes: one GET per file, for
      its path resolved against the worker's directory. The paths are absolute
      and pairwise different, and the first is the root page `/`. */
  function StaticRequests(): (reqs: seq<Request>)
    ensures |reqs| == |STATIC_FILES| && reqs[0].path == "/"
    ensures forall i :: 0 <= i < |reqs| ==> reqs[i].verb == "GET" && reqs[i].path == Resolve(STATIC_FILES[i])
    ensures forall i :: 0 <= i < |reqs| ==> |reqs[i].path| >= 1 && reqs[i].path[0] == '/'
    ensures forall i, j :: 0 <= i < j < |reqs| ==> reqs[i].path != reqs[j].path
  {
    ShellFilesDistinct();
    ResolvedDistinct(STATIC_FILES);
    seq(|STATIC_FILES|, i requires 0 <= i < |STATIC_FILES| => Request("GET", Resolve(STATIC_FILES[i])))
  }

  /** `offlineFallback(type)`: an HTML notice for a page that is neither online
      nor cached; any type other than "note" gets the list notice. */
  function OfflineFallback(kind: string): (r: Response)
    ensures r.status == 200 && r.Ok() && r.contentType == HTML
    ensures r.body == NOTE_UNAVAILABLE <==> kind == "note"
    ensures kind != "note" ==> r.body == LIST_UNAVAILABLE
  {
    Response(200, if kind == "note" then NOTE_UNAVAILABLE else LIST_UNAVAILABLE, HTML)
  }

  /** A GET is never blocked as a mutation. */
  lemma GetIsNotMutating()
    ensures "GET" !in MUTATING_METHODS
  {
    assert forall m :: m in MUTATING_METHODS ==> |m| > 0 && m[0] != 'G';
  }

  /** The strategy the fetch handler picks for a request. */
  datatype Route = CrossOrigin | OfflineMutation | NotePage | ListPage | StaticAsset

  function Classify(sameOrigin: bool, online: bool, req: Request): Route {
    if !sameOrigin then CrossOrigin
    else if !online && req.verb in MUTATING_METHODS then OfflineMutation
    else if NOTE_PREFIX <= req.path then NotePage
    else if req.path == "/documents" || req.path == "/" then ListPage
    else StaticAsset
  }

  /** The result of one fetch event: what the page gets, and the caches after it. */
  datatype Step = Step(outcome: Outcome, after: Store)

  /** Network first: a fetched response is returned, and stored in NOTES_CACHE
      when ok; a failed fetch falls back to any cache, then to the notice of
      `kind`. The worker does not await the store; the model applies it within
      the event. */
  function NetworkFirst(s: Store, req: Request, net: NetOutcome, kind: string): Step {
    match net
    case Fetched(resp) =>
      Step(Respond(resp), if resp.Ok() then Stored(Opened(s, NOTES_CACHE), NOTES_CACHE, req, resp) else s)
    case Failed =>
      Step(Respond(match Lookup(s, req) case Some(cached) => cached case None => OfflineFallback(kind)), s)
  }

  /** Cache first: a cached response if any, else whatever the network gives,
      which is not stored; a failed fetch rejects the `respondWith` promise. */
  function CacheFirst(s: Store, req: Request, net: NetOutcome): Step {
    match Lookup(s, req)
    case Some(cached) => Step(Respond(cached), s)
    case None =>
      match net
      case Fetched(resp) => Step(Respond(resp), s)
      case Failed => Step(NetworkError, s)
  }

  /** The fetch handler as a function of the caches and the event. */
  function HandleFetch(s: Store, sameOrigin: bool, online: bool, req: Request, net: NetOutcome): Step {
    match Classify(sameOrigin, online, req)
    case CrossOrigin => Step(NotHandled, s)
    case OfflineMutation => Step(Respond(OFFLINE_RESPONSE), s)
    case NotePage => NetworkFirst(s, req, net, "note")
    case ListPage => NetworkFirst(s, req, net, "list")
    case StaticAsset => CacheFirst(s, req, net)
  }

  /** The install handler: open STATIC_CACHE and add the app shell to it. */
  function Installed(s: Store, net: Request -> NetOutcome): Store {
    Filled(Opened(s, STATIC_CACHE), STATIC_CACHE, StaticRequests(), net)
  }

  /** The caches of this version of the worker. */
  const CURRENT: set<string> := {STATIC_CACHE, NOTES_CACHE}

  /** The activate handler: every cache but the two of this version is deleted. */
  function Activated(s: Store): Store {
    Retained(s, CURRENT)
  }

  method OnInstall(cs: Caches, net: Request -> NetOutcome) returns (installed: bool)
    requires cs.Valid()
    modifies cs
    ensures cs.Valid() && cs.State() == Installed(old(cs.State()), net)
    ensures installed <==> AllCacheable(StaticRequests(), net)
  {
    cs.Open(STATIC_CACHE);
    installed := cs.AddAll(STATIC_CACHE, StaticRequests(), net);
  }

  method OnActivate(cs: Caches)
    requires cs.Valid()
    modifies cs
    ensures cs.Valid() && cs.State() == Activated(old(cs.State()))
  {
    ghost var before := cs.State();
    var keys := cs.Keys();
    var doomed := Without(keys, CURRENT);
    DeletedNone(before);
    var i := 0;
    while i < |doomed|
      invariant 0 <= i <= |doomed|
      invariant cs.State() == DeletedAll(before, doomed[..i])
    {
      var gone := cs.Delete(doomed[i]);
      DeletedNext(before, doomed, i);
      i := i + 1;
    }
    assert doomed[..i] == doomed;
    DeletedAllBut(before, CURRENT, doomed);
    RetainedWellFormed(before, CURRENT);
  }

  /** The network-first branch of the fetch handler, for route notice `kind`. */
  method RespondNetworkFirst(cs: Caches, req: Request, net: NetOutcome, kind: string) returns (outcome: Outcome)
    requires cs.Valid()
    modifies cs
    ensures cs.Valid() && Step(outcome, cs.State()) == NetworkFirst(old(cs.State()), req, net, kind)
  {
    match net
    case Fetched(resp) =>
      if resp.Ok() {
        // not awaited in the worker: modelled as done before the event ends
        cs.Open(NOTES_CACHE);
        cs.Put(NOTES_CACHE, req, resp);
      }
      outcome := Respond(resp);
    case Failed =>
      var cached := cs.Match(req);
      outcome := Respond(if cached.Some? then cached.value else OfflineFallback(kind));
  }

  /** The cache-first branch of the fetch handler; it never writes. */
  method RespondCacheFirst(cs: Caches, req: Request, net: NetOutcome) returns (outcome: Outcome)
    ensures Step(outcome, cs.State()) == CacheFirst(cs.State(), req, net)
  {
    var cached := cs.Match(req);
    if cached.Some? {
      outcome := Respond(cached.value);
    } else if net.Fetched? {
      outcome := Respond(net.response);
    } else {
      outcome := NetworkError;
    }
  }

  method OnFetch(cs: Caches, sameOrigin: bool, online: bool, req: Request, net: NetOutcome) returns (outcome: Outcome)
    requires cs.Valid()
    modifies cs
    ensures cs.Valid() && Step(outcome, cs.State()) == HandleFetch(old(cs.State()), sameOrigin, online, req, net)
  {
    match Classify(sameOrigin, online, req)
    case CrossOrigin =>
      outcome := NotHandled;
    case OfflineMutation =>
      outcome := Respond(OFFLINE_RESPONSE);
    case NotePage =>
      outcome := RespondNetworkFirst(cs, req, net, "note");
    case ListPage =>
      outcome := RespondNetworkFirst(cs, req, net, "list");
    case StaticAsset =>
      outcome := RespondCacheFirst(cs, req, net);
  }

  // The caching policy.

  /** Requests from another origin are left to the browser; nothing is cached. */
  lemma CrossOriginIgnored(s: Store, online: bool, req: Request, net: NetOutcome)
    ensures HandleFetch(s, false, online, req, net) == Step(NotHandled, s)
  {
  }

  /** Offline, a mutation gets the 503 warning whatever its path, and no cache is touched. */
  lemma OfflineMutationRefused(s: Store, req: Request, net: NetOutcome)
    requires req.verb in MUTATING_METHODS
    ensures var step := HandleFetch(s, true, false, req, net);
      step.after == s && step.outcome.Respond?
      && step.outcome.response.status == 503
      && step.outcome.response.body == OFFLINE_WARNING
      && step.outcome.response.contentType == HTML
  {
  }

  /** The `/note/` prefix is tested first, then the two list paths exactly;
      everything else is a static asset. */
  lemma RoutePrecedence(online: bool, req: Request)
    requires online || req.verb !in MUTATING_METHODS
    ensures NOTE_PREFIX <= req.path ==> Classify(true, online, req) == NotePage
    ensures Classify(true, online, req) == ListPage <==> req.path in {"/documents", "/"}
    ensures Classify(true, online, req) == StaticAsset <==>
              !(NOTE_PREFIX <= req.path) && req.path !in {"/documents", "/"}
  {
    assert "/documents"[1] != NOTE_PREFIX[1];
  }

  lemma RouteExamples()
    ensures Classify(true, true, Request("GET", "/note/42")) == NotePage
    ensures Classify(true, true, Request("GET", "/note")) == StaticAsset
    ensures Classify(true, true, Request("GET", "/notes")) == StaticAsset
    ensures Classify(true, true, Request("GET", "/documents/x")) == StaticAsset
    ensures Classify(true, true, Request("GET", "/")) == ListPage
    ensures Classify(true, false, Request("DELETE", "/note/42")) == OfflineMutation
    ensures Classify(true, false, Request("POST", "/")) == OfflineMutation
    ensures Classify(true, false, Request("GET", "/note/42")) == NotePage
  {
    assert "/notes"[5] != NOTE_PREFIX[5];
    assert "/documents/x"[1] != NOTE_PREFIX[1];
  }

  predicate IsNetworkFirst(route: Route) {
    route == NotePage || route == ListPage
  }

  /** The notice a network-first route falls back to. */
  function FallbackKind(route: Route): string {
    if route == NotePage then "note" else "list"
  }

  /** Network first, fetch ok: the response is returned and stored in
      NOTES_CACHE under its path (when the Cache API accepts it); no other
      cache and no other entry changes. */
  lemma NetworkFirstStoresOk(s: Store, online: bool, req: Request, resp: Response)
    requires IsNetworkFirst(Classify(true, online, req))
    requires resp.Ok()
    ensures var step := HandleFetch(s, true, online, req, Fetched(resp));
      step.outcome == Respond(resp)
      && NOTES_CACHE in step.after.caches
      && (Cacheable(req, resp) ==> req.path in step.after.caches[NOTES_CACHE]
                                   && step.after.caches[NOTES_CACHE][req.path] == resp)
      && (forall n :: n in s.caches && n != NOTES_CACHE ==>
            n in step.after.caches && step.after.caches[n] == s.caches[n])
      && (NOTES_CACHE in s.caches ==>
            forall k :: k in s.caches[NOTES_CACHE] && k != req.path ==>
              k in step.after.caches[NOTES_CACHE] && step.after.caches[NOTES_CACHE][k] == s.caches[NOTES_CACHE][k])
      && (Cacheable(req, resp) ==>
            step.after.caches[NOTES_CACHE].Keys
            == (if NOTES_CACHE in s.caches then s.caches[NOTES_CACHE].Keys else {}) + {req.path})
      && (!Cacheable(req, resp) ==> step.after == Opened(s, NOTES_CACHE))
  {
  }

  /** Network first, fetch not ok: the response is returned as it is and not stored. */
  lemma NetworkFirstPassesNotOk(s: Store, online: bool, req: Request, resp: Response)
    requires IsNetworkFirst(Classify(true, online, req))
    requires !resp.Ok()
    ensures HandleFetch(s, true, online, req, Fetched(resp)) == Step(Respond(resp), s)
  {
  }

  /** Network first, fetch failed: a cached copy from any cache, else the
      route's notice with status 200; nothing is written. */
  lemma NetworkFirstOffline(s: Store, online: bool, req: Request)
    requires IsNetworkFirst(Classify(true, online, req))
    ensures var step := HandleFetch(s, true, online, req, Failed);
      var route := Classify(true, online, req);
      step.after == s && step.outcome.Respond?
      && (Lookup(s, req).Some? ==> step.outcome.response == Lookup(s, req).value)
      && (Lookup(s, req).None? ==> step.outcome.response == OfflineFallback(FallbackKind(route))
                                   && step.outcome.response.status == 200)
  {
  }

  /** Cache first, hit: the cached response, whatever the network would say. */
  lemma CacheFirstHit(s: Store, online: bool, req: Request, net: NetOutcome, cached: Response)
    requires Classify(true, online, req) == StaticAsset
    requires Lookup(s, req) == Some(cached)
    ensures HandleFetch(s, true, online, req, net) == Step(Respond(cached), s)
  {
  }

  /** Cache first, miss: the network's answer, never stored; a failed fetch is a network error. */
  lemma CacheFirstMiss(s: Store, online: bool, req: Request, net: NetOutcome)
    requires Classify(true, online, req) == StaticAsset
    requires Lookup(s, req).None?
    ensures HandleFetch(s, true, online, req, net)
            == Step(if net.Fetched? then Respond(net.response) else NetworkError, s)
  {
  }

  /** A fetch event writes at most NOTES_CACHE, and only after an ok network
      response on a network-first route. */
  lemma FetchWritesOnlyNotes(s: Store, sameOrigin: bool, online: bool, req: Request, net: NetOutcome)
    requires WellFormed(s)
    ensures var after := HandleFetch(s, sameOrigin, online, req, net).after;
      WellFormed(after)
      && after.caches.Keys <= s.caches.Keys + {NOTES_CACHE}
      && |s.names| <= |after.names| && after.names[..|s.names|] == s.names
      && (forall n :: n in s.caches && n != NOTES_CACHE ==> after.caches[n] == s.caches[n])
      && (after != s ==> sameOrigin && IsNetworkFirst(Classify(sameOrigin, online, req))
                         && net.Fetched? && net.response.Ok())
  {
    var step := HandleFetch(s, sameOrigin, online, req, net);
    if sameOrigin && IsNetworkFirst(Classify(sameOrigin, online, req)) && net.Fetched? && net.response.Ok() {
      var created := Opened(s, NOTES_CACHE);
      assert step.after == Stored(created, NOTES_CACHE, req, net.response);
    } else {
      assert step.after == s;
    }
  }

  /** After an ok network-first fetch of a page no other cache holds, a cache
      lookup of that page finds exactly the fetched response. */
  lemma VisitedPageCached(s: Store, req: Request, resp: Response)
    requires WellFormed(s)
    requires IsNetworkFirst(Classify(true, true, req))
    requires resp.Ok() && Cacheable(req, resp)
    requires forall n :: n in s.caches && n != NOTES_CACHE ==> req.path !in s.caches[n]
    ensures Lookup(HandleFetch(s, true, true, req, Fetched(resp)).after, req) == Some(resp)
  {
    var kind := FallbackKind(Classify(true, true, req));
    assert HandleFetch(s, true, true, req, Fetched(resp)) == NetworkFirst(s, req, Fetched(resp), kind);
    PutThenMatch(s, NOTES_CACHE, req, resp);
  }

  /** A page fetched while online is served from the cache when the network
      fails later, provided no older cache holds another copy of it. */
  lemma VisitedPageAvailableOffline(s: Store, req: Request, resp: Response)
    requires WellFormed(s)
    requires IsNetworkFirst(Classify(true, true, req))
    requires resp.Ok() && Cacheable(req, resp)
    requires forall n :: n in s.caches && n != NOTES_CACHE ==> req.path !in s.caches[n]
    ensures var first := HandleFetch(s, true, true, req, Fetched(resp));
      HandleFetch(first.after, true, false, req, Failed) == Step(Respond(resp), first.after)
  {
    var after := HandleFetch(s, true, true, req, Fetched(resp)).after;
    assert Lookup(after, req) == Some(resp) by {
      VisitedPageCached(s, req, resp);
    }
    assert IsNetworkFirst(Classify(true, false, req)) by {
      GetIsNotMutating();
    }
    NetworkFirstOffline(after, false, req);
  }

  /** Install opens STATIC_CACHE and, when every shell file fetches ok, holds
      an entry for each of them and keeps its entries for other paths;
      otherwise it stores nothing. Other caches are untouched. */
  lemma InstallCachesShell(s: Store, net: Request -> NetOutcome)
    requires WellFormed(s)
    ensures var after := Installed(s, net);
      WellFormed(after) && STATIC_CACHE in after.caches
      && (forall n :: n in s.caches && n != STATIC_CACHE ==> after.caches[n] == s.caches[n])
      && (AllCacheable(StaticRequests(), net) ==>
            forall f :: f in STATIC_FILES ==> Resolve(f) in after.caches[STATIC_CACHE])
      && (STATIC_CACHE in s.caches ==>
            forall k :: k in s.caches[STATIC_CACHE] && k !in Paths(StaticRequests()) ==>
              k in after.caches[STATIC_CACHE] && after.caches[STATIC_CACHE][k] == s.caches[STATIC_CACHE][k])
      && (!AllCacheable(StaticRequests(), net) ==> after == Opened(s, STATIC_CACHE))
  {
    var after := Installed(s, net);
    forall f | f in STATIC_FILES && AllCacheable(StaticRequests(), net)
      ensures Resolve(f) in after.caches[STATIC_CACHE]
    {
      var i :| 0 <= i < |STATIC_FILES| && STATIC_FILES[i] == f;
      assert StaticRequests()[i] in StaticRequests();
    }
  }

  /** After a successful install, each shell request's path holds the
      network's response to that very request. */
  lemma InstallStoresShell(s: Store, net: Request -> NetOutcome)
    requires AllCacheable(StaticRequests(), net)
    ensures forall i :: 0 <= i < |StaticRequests()| ==>
              HoldsResponse(Installed(s, net).caches, STATIC_CACHE, StaticRequests()[i].path,
                            net(StaticRequests()[i]).response)
  {
    FilledStoresEach(Opened(s, STATIC_CACHE), STATIC_CACHE, StaticRequests(), net);
  }

  /** After a successful install, the shell cache holds the root page `/`. */
  lemma InstalledShellHoldsRoot(s: Store, net: Request -> NetOutcome)
    requires WellFormed(s)
    requires AllCacheable(StaticRequests(), net)
    ensures Lookup(Installed(s, net), Request("GET", "/")).Some?
  {
    var after := Installed(s, net);
    InstallCachesShell(s, net);
    assert Resolve(STATIC_FILES[0]) == "/";
    MatchFindsHolder(after.names, after.caches, "/", STATIC_CACHE);
  }

  /** After a successful install, the document list at `/` is answered from the
      shell cache when offline rather than by the list notice. */
  lemma InstalledShellServesRootOffline(s: Store, net: Request -> NetOutcome)
    requires WellFormed(s)
    requires AllCacheable(StaticRequests(), net)
    ensures var after := Installed(s, net);
      var root := Request("GET", "/");
      Lookup(after, root).Some?
      && HandleFetch(after, true, false, root, Failed) == Step(Respond(Lookup(after, root).value), after)
  {
    var root := Request("GET", "/");
    InstalledShellHoldsRoot(s, net);
    GetIsNotMutating();
    assert Classify(true, false, root) == ListPage;
    NetworkFirstOffline(Installed(s, net), false, root);
  }

  /** Installing into empty caches creates only STATIC_CACHE, holding `/`. */
  lemma InstalledFromEmpty(net: Request -> NetOutcome)
    requires AllCacheable(StaticRequests(), net)
    ensures var t := Installed(Empty, net);
      WellFormed(t) && t.names == [STATIC_CACHE] && "/" in t.caches[STATIC_CACHE]
  {
    assert Opened(Empty, STATIC_CACHE).names == [STATIC_CACHE];
    InstalledShellHoldsRoot(Empty, net);
    InstallCachesShell(Empty, net);
    var t := Installed(Empty, net);
    assert t.names == [STATIC_CACHE];
    assert MatchIn(t.names, t.caches, "/").Some?;
  }

  /** Starting from empty caches: after install and an ok online fetch of `/`,
      an offline fetch of `/` is answered with the copy stored at install, not
      the newer one in NOTES_CACHE, because STATIC_CACHE was created first and
      `caches.match` takes the first cache holding the key. */
  lemma RootOfflineServesInstallCopy(net: Request -> NetOutcome, resp: Response)
    requires AllCacheable(StaticRequests(), net)
    ensures var root := Request("GET", "/");
      var installed := Installed(Empty, net);
      var visited := HandleFetch(installed, true, true, root, Fetched(resp)).after;
      STATIC_CACHE in installed.caches && "/" in installed.caches[STATIC_CACHE]
      && HandleFetch(visited, true, false, root, Failed).outcome
         == Respond(installed.caches[STATIC_CACHE]["/"])
  {
    var root := Request("GET", "/");
    var installed := Installed(Empty, net);
    InstalledFromEmpty(net);
    var visited := HandleFetch(installed, true, true, root, Fetched(resp)).after;
    FetchWritesOnlyNotes(installed, true, true, root, Fetched(resp));
    assert visited.names[0] == STATIC_CACHE by {
      assert visited.names[..1] == [STATIC_CACHE];
    }
    assert MatchIn(visited.names, visited.caches, "/") == Some(installed.caches[STATIC_CACHE]["/"]);
    GetIsNotMutating();
    assert Classify(true, false, root) == ListPage;
    NetworkFirstOffline(visited, false, root);
  }

  /** After activate only this version's caches are left, with their contents;
      activating again changes nothing. */
  lemma ActivateKeepsCurrent(s: Store)
    requires WellFormed(s)
    ensures var after := Activated(s);
      WellFormed(after)
      && (forall n :: n in after.caches ==> n == STATIC_CACHE || n == NOTES_CACHE)
      && (forall n :: n in s.caches && n in CURRENT ==> n in after.caches && after.caches[n] == s.caches[n])
      && (forall a, b :: a in CURRENT && b in CURRENT ==> (Precedes(after.names, a, b) <==> Precedes(s.names, a, b)))
      && Activated(after) == after
  {
    RetainedWellFormed(s, CURRENT);
    RetainedTwice(s, CURRENT);
    forall a, b | a in CURRENT && b in CURRENT
      ensures Precedes(Activated(s).names, a, b) <==> Precedes(s.names, a, b)
    {
      RetainedKeepsOrder(s, CURRENT, a, b);
    }
  }

  /** `offlineFallback` with a type it has no message for gives the list notice. */
  lemma UnknownKindGetsListNotice(kind: string)
    requires kind != "note" && kind != "list"
    ensures OfflineFallback(kind) == OfflineFallback("list")
  {
  }
}
