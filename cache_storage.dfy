/** The browser's Cache Storage as the worker uses it: a list of named caches in
    creation order, each a map from request path to the stored response.

    `Store` is the value the specification functions work on; `Caches` is the
    mutable object the event handlers update, and each of its methods is proved
    to move its state exactly as the matching function on `Store` says.

    The rules of the Cache API that the worker relies on are those of the
    Service Workers specification: `caches.open` creates a missing cache at the
    end of the list, `cache.put` refuses a request that is not a GET and a
    partial (206) response, `cache.addAll` refuses those and also a response
    that is not ok, and stores all of its responses or none, `caches.match`
    answers only GET requests and takes the first cache, in creation order,
    holding the key. */
module CacheStorage {

  import opened Http

  /** The entries of one cache, keyed by request path. */
  type Entries = map<string, Response>

  /** Cache names in creation order, and the entries of each cache. */
  datatype Store = Store(names: seq<string>, caches: map<string, Entries>)

  const Empty := Store([], map[])

  predicate Distinct(ns: seq<string>) {
    forall i, j :: 0 <= i < j < |ns| ==> ns[i] != ns[j]
  }

  /** A well-formed store lists each of its caches exactly once. */
  ghost predicate WellFormed(s: Store) {
    Distinct(s.names) && forall n :: n in s.caches <==> n in s.names
  }

  /** Whether `a` occurs in `ns` before an occurrence of `b`. */
  predicate Precedes(ns: seq<string>, a: string, b: string)
    decreases |ns|
  {
    ns != [] && if ns[0] == a then b in ns[1..] else Precedes(ns[1..], a, b)
  }

  lemma {:induction false} PrecedesMembers(ns: seq<string>, a: string, b: string)
    requires Precedes(ns, a, b)
    ensures a in ns && b in ns
  {
    assert ns == [ns[0]] + ns[1..];
    if ns[0] != a {
      PrecedesMembers(ns[1..], a, b);
    }
  }

  /** Of two different listed names, one comes first. */
  lemma {:induction false} PrecedesTotal(ns: seq<string>, a: string, b: string)
    requires a in ns && b in ns && a != b
    ensures Precedes(ns, a, b) || Precedes(ns, b, a)
  {
    assert ns == [ns[0]] + ns[1..];
    if ns[0] != a && ns[0] != b {
      PrecedesTotal(ns[1..], a, b);
    }
  }

  /** In a duplicate-free list no name comes before itself, and two names are
      never in both orders. */
  lemma {:induction false} PrecedesOneWay(ns: seq<string>, a: string, b: string)
    requires Distinct(ns) && Precedes(ns, a, b)
    ensures a != b && !Precedes(ns, b, a)
  {
    var tail := ns[1..];
    assert Distinct(tail) by {
      forall i, j | 0 <= i < j < |tail| ensures tail[i] != tail[j] {
        assert tail[i] == ns[i + 1] && tail[j] == ns[j + 1];
      }
    }
    assert ns[0] !in tail by {
      forall i | 0 <= i < |tail| ensures tail[i] != ns[0] {
        assert tail[i] == ns[i + 1];
      }
    }
    if ns[0] == a {
      if Precedes(ns, b, a) {
        PrecedesMembers(tail, b, a);
      }
    } else {
      PrecedesOneWay(tail, a, b);
      PrecedesMembers(tail, a, b);
    }
  }

  /** The elements of `ns` not in `gone`, in their order. */
  function Without(ns: seq<string>, gone: set<string>): (r: seq<string>)
    ensures forall x :: x in r <==> x in ns && x !in gone
    ensures |r| <= |ns|
    ensures Distinct(ns) ==> Distinct(r)
  {
    if ns == [] then []
    else
      var rest := Without(ns[1..], gone);
      assert Distinct(ns) ==> ns[0] !in ns[1..];
      if ns[0] in gone then rest else [ns[0]] + rest
  }

  /** Two names that `Without` keeps come in the same order as in `ns`. */
  lemma {:induction false} WithoutKeepsOrder(ns: seq<string>, gone: set<string>, a: string, b: string)
    requires Precedes(Without(ns, gone), a, b)
    ensures Precedes(ns, a, b)
  {
    var rest := Without(ns[1..], gone);
    if ns[0] in gone {
      PrecedesMembers(rest, a, b);
      WithoutKeepsOrder(ns[1..], gone, a, b);
    } else {
      var r := Without(ns, gone);
      assert r[0] == ns[0] && r[1..] == rest;
      if ns[0] != a {
        WithoutKeepsOrder(ns[1..], gone, a, b);
      }
    }
  }

  /** Conversely, in a duplicate-free list, two kept names keep their order. */
  lemma WithoutKeepsOrderBack(ns: seq<string>, gone: set<string>, a: string, b: string)
    requires Distinct(ns) && Precedes(ns, a, b) && a !in gone && b !in gone
    ensures Precedes(Without(ns, gone), a, b)
  {
    var r := Without(ns, gone);
    PrecedesMembers(ns, a, b);
    PrecedesOneWay(ns, a, b);
    PrecedesTotal(r, a, b);
    if Precedes(r, b, a) {
      WithoutKeepsOrder(ns, gone, b, a);
    }
  }

  lemma {:induction false} WithoutNothing(ns: seq<string>, gone: set<string>)
    requires forall x :: x in ns ==> x !in gone
    ensures Without(ns, gone) == ns
  {
    if ns != [] {
      WithoutNothing(ns[1..], gone);
    }
  }

  /** Removing `a`, then `b`, is removing both at once. */
  lemma {:induction false} WithoutWithout(ns: seq<string>, a: set<string>, b: set<string>)
    ensures Without(Without(ns, a), b) == Without(ns, a + b)
  {
    if ns != [] {
      WithoutWithout(ns[1..], a, b);
    }
  }

  predicate Holds(caches: map<string, Entries>, name: string, key: string) {
    name in caches && key in caches[name]
  }

  /** Whether the cache `name` holds `resp` under `key`. */
  predicate HoldsResponse(caches: map<string, Entries>, name: string, key: string, resp: Response) {
    Holds(caches, name, key) && caches[name][key] == resp
  }

  /** The response stored under `key` in the first cache of `names` that holds it. */
  function MatchIn(names: seq<string>, caches: map<string, Entries>, key: string): (r: Option<Response>)
    ensures r.None? <==> forall i :: 0 <= i < |names| ==> !Holds(caches, names[i], key)
    ensures r.Some? ==> exists i :: 0 <= i < |names| && Holds(caches, names[i], key)
                          && r.value == caches[names[i]][key]
                          && forall j :: 0 <= j < i ==> !Holds(caches, names[j], key)
    decreases |names|
  {
    if names == [] then None
    else if Holds(caches, names[0], key) then Some(caches[names[0]][key])
    else
      var r := MatchIn(names[1..], caches, key);
      assert forall i :: 1 <= i < |names| ==> names[i] == names[1..][i - 1];
      if r.Some? then
        var k :| 0 <= k < |names| - 1 && Holds(caches, names[1..][k], key)
                 && r.value == caches[names[1..][k]][key]
                 && forall j :: 0 <= j < k ==> !Holds(caches, names[1..][j], key);
        assert forall j :: 0 <= j < k + 1 ==> !Holds(caches, names[j], key) by {
          forall j | 0 <= j < k + 1 ensures !Holds(caches, names[j], key) {
            if j > 0 { assert names[j] == names[1..][j - 1]; }
          }
        }
        r
      else r
  }

  /** A key held by some listed cache is found. */
  lemma MatchFindsHolder(names: seq<string>, caches: map<string, Entries>, key: string, name: string)
    requires name in names && Holds(caches, name, key)
    ensures MatchIn(names, caches, key).Some?
  {
    var i :| 0 <= i < |names| && names[i] == name;
  }

  /** A key held by exactly one listed cache is found there. */
  lemma MatchFindsOnlyHolder(names: seq<string>, caches: map<string, Entries>, key: string, name: string)
    requires name in names && Holds(caches, name, key)
    requires forall n :: n in caches && n != name ==> key !in caches[n]
    ensures MatchIn(names, caches, key) == Some(caches[name][key])
  {
    MatchFindsHolder(names, caches, key, name);
  }

  /** `caches.match(request)`: only GET requests are answered. */
  function Lookup(s: Store, req: Request): Option<Response> {
    if req.verb != "GET" then None else MatchIn(s.names, s.caches, req.path)
  }

  /** Opening `name` and putting a response there makes a later `caches.match`
      find exactly that response, when no other cache holds the same key. */
  lemma PutThenMatch(s: Store, name: string, req: Request, resp: Response)
    requires WellFormed(s) && Cacheable(req, resp)
    requires forall n :: n in s.caches && n != name ==> req.path !in s.caches[n]
    ensures Lookup(Stored(Opened(s, name), name, req, resp), req) == Some(resp)
  {
    var t := Stored(Opened(s, name), name, req, resp);
    assert name in t.names;
    MatchFindsOnlyHolder(t.names, t.caches, req.path, name);
  }

  /** `caches.open(name)`: an existing cache is reused, a missing one is created
      empty at the end of the list. */
  function Opened(s: Store, name: string): (r: Store)
    ensures WellFormed(s) ==> WellFormed(r)
    ensures name in r.caches && r.caches.Keys == s.caches.Keys + {name}
    ensures name !in s.caches ==> r.caches[name] == map[]
    ensures forall n :: n in s.caches ==> r.caches[n] == s.caches[n]
    ensures |s.names| <= |r.names| && r.names[..|s.names|] == s.names
  {
    if name in s.caches then s
    else Store(s.names + [name], s.caches[name := map[]])
  }

  /** Whether `cache.put(request, response)` accepts the pair: a GET request
      and a response that is not partial. */
  predicate Cacheable(req: Request, resp: Response) {
    req.verb == "GET" && resp.status != 206
  }

  /** `cache.put(request, response)` on the cache `name`; a refused pair leaves
      the store as it was. */
  function Stored(s: Store, name: string, req: Request, resp: Response): (r: Store)
    requires name in s.caches
    ensures WellFormed(s) ==> WellFormed(r)
    ensures r.names == s.names && r.caches.Keys == s.caches.Keys
    ensures Cacheable(req, resp) ==> req.path in r.caches[name] && r.caches[name][req.path] == resp
    ensures Cacheable(req, resp) ==> r.caches[name].Keys == s.caches[name].Keys + {req.path}
    ensures !Cacheable(req, resp) ==> r == s
    ensures forall k :: k in s.caches[name] && k != req.path ==> k in r.caches[name] && r.caches[name][k] == s.caches[name][k]
    ensures forall n :: n in s.caches && n != name ==> r.caches[n] == s.caches[n]
  {
    if Cacheable(req, resp) then Store(s.names, s.caches[name := s.caches[name][req.path := resp]])
    else s
  }

  /** `caches.delete(name)`: the cache and its entries are gone, the others stay in order. */
  function Deleted(s: Store, name: string): (r: Store)
    ensures WellFormed(s) ==> WellFormed(r)
    ensures name !in r.caches && name !in r.names
    ensures forall n :: n != name ==> (n in r.names <==> n in s.names)
    ensures forall n :: n in s.caches && n != name ==> n in r.caches && r.caches[n] == s.caches[n]
    ensures forall a, b :: Precedes(r.names, a, b) ==> Precedes(s.names, a, b)
    ensures WellFormed(s) ==>
              forall a, b :: a != name && b != name && Precedes(s.names, a, b) ==> Precedes(r.names, a, b)
  {
    var r := Store(Without(s.names, {name}), s.caches - {name});
    assert forall a, b :: Precedes(r.names, a, b) ==> Precedes(s.names, a, b) by {
      forall a, b | Precedes(r.names, a, b) ensures Precedes(s.names, a, b) {
        WithoutKeepsOrder(s.names, {name}, a, b);
      }
    }
    assert WellFormed(s) ==>
             forall a, b :: a != name && b != name && Precedes(s.names, a, b) ==> Precedes(r.names, a, b) by {
      forall a, b | WellFormed(s) && a != name && b != name && Precedes(s.names, a, b)
        ensures Precedes(r.names, a, b)
      {
        WithoutKeepsOrderBack(s.names, {name}, a, b);
      }
    }
    r
  }

  /** The store after deleting each cache named in `gone`. */
  function DeletedAll(s: Store, gone: seq<string>): Store {
    Store(Without(s.names, set g | g in gone), map n | n in s.caches && n !in gone :: s.caches[n])
  }

  lemma DeletedNone(s: Store)
    requires WellFormed(s)
    ensures DeletedAll(s, []) == s
  {
    var none: seq<string> := [];
    WithoutNothing(s.names, set g | g in none);
    assert DeletedAll(s, none).caches == s.caches;
  }

  lemma DeletedOneMore(s: Store, gone: seq<string>, d: string)
    ensures Deleted(DeletedAll(s, gone), d) == DeletedAll(s, gone + [d])
  {
    var left := Deleted(DeletedAll(s, gone), d);
    var right := DeletedAll(s, gone + [d]);
    assert left.names == right.names by {
      WithoutWithout(s.names, set g | g in gone, {d});
      assert (set g | g in gone + [d]) == (set g | g in gone) + {d};
    }
    assert left.caches.Keys == right.caches.Keys;
    assert left.caches == right.caches;
  }

  lemma DeletedNext(s: Store, gone: seq<string>, i: nat)
    requires i < |gone|
    ensures Deleted(DeletedAll(s, gone[..i]), gone[i]) == DeletedAll(s, gone[..i + 1])
  {
    DeletedOneMore(s, gone[..i], gone[i]);
    assert gone[..i + 1] == gone[..i] + [gone[i]];
  }

  /** The store with only the caches named in `keep` left, in their order. */
  function Retained(s: Store, keep: set<string>): Store {
    Store(Without(s.names, set n | n in s.names && n !in keep), map n | n in s.caches && n in keep :: s.caches[n])
  }

  lemma RetainedWellFormed(s: Store, keep: set<string>)
    requires WellFormed(s)
    ensures WellFormed(Retained(s, keep))
    ensures forall n :: n in Retained(s, keep).names ==> n in keep
  {
  }

  /** Keeping some caches leaves the kept ones in their order. */
  lemma RetainedKeepsOrder(s: Store, keep: set<string>, a: string, b: string)
    requires WellFormed(s) && a in keep && b in keep
    ensures Precedes(Retained(s, keep).names, a, b) <==> Precedes(s.names, a, b)
  {
    var gone := set n | n in s.names && n !in keep;
    if Precedes(Retained(s, keep).names, a, b) {
      WithoutKeepsOrder(s.names, gone, a, b);
    }
    if Precedes(s.names, a, b) {
      WithoutKeepsOrderBack(s.names, gone, a, b);
    }
  }

  /** Keeping the same caches a second time changes nothing. */
  lemma RetainedTwice(s: Store, keep: set<string>)
    requires WellFormed(s)
    ensures Retained(Retained(s, keep), keep) == Retained(s, keep)
  {
    var t := Retained(s, keep);
    RetainedWellFormed(s, keep);
    WithoutNothing(t.names, set n | n in t.names && n !in keep);
    assert Retained(t, keep).caches == t.caches;
  }

  /** Deleting every listed cache outside `keep`, one by one, retains `keep`. */
  lemma DeletedAllBut(s: Store, keep: set<string>, doomed: seq<string>)
    requires WellFormed(s)
    requires doomed == Without(s.names, keep)
    ensures DeletedAll(s, doomed) == Retained(s, keep)
  {
    assert (set g | g in doomed) == set n | n in s.names && n !in keep;
    var left := DeletedAll(s, doomed);
    var right := Retained(s, keep);
    assert left.names == right.names;
    assert left.caches.Keys == right.caches.Keys;
  }

  /** Whether every request fetches to a response that `addAll` accepts: an
      ok response that `put` would also accept. */
  predicate AllCacheable(reqs: seq<Request>, net: Request -> NetOutcome) {
    forall q :: q in reqs ==> net(q).Fetched? && net(q).response.Ok() && Cacheable(q, net(q).response)
  }

  /** The cache keys of a list of requests. */
  function Paths(reqs: seq<Request>): set<string> {
    set q | q in reqs :: q.path
  }

  lemma PathsCons(reqs: seq<Request>)
    requires reqs != []
    ensures Paths(reqs) == {reqs[0].path} + Paths(reqs[1..])
    ensures forall q :: q in reqs[1..] ==> q in reqs
  {
    assert reqs == [reqs[0]] + reqs[1..];
  }

  /** The entries after putting the fetched response of each request, in order. */
  function PutAll(e: Entries, reqs: seq<Request>, net: Request -> NetOutcome): (r: Entries)
    requires AllCacheable(reqs, net)
    ensures r.Keys == e.Keys + Paths(reqs)
    ensures forall k :: k in e && k !in Paths(reqs) ==> r[k] == e[k]
    decreases |reqs|
  {
    if reqs == [] then e
    else
      PathsCons(reqs);
      PutAll(e[reqs[0].path := net(reqs[0]).response], reqs[1..], net)
  }

  /** Whether no request after the `i`th has the same path. */
  predicate LastWithPath(reqs: seq<Request>, i: int)
    requires 0 <= i < |reqs|
  {
    forall j :: i < j < |reqs| ==> reqs[j].path != reqs[i].path
  }

  /** Each request whose path no later request repeats leaves its own fetched
      response in the cache. */
  lemma {:induction false} PutAllStores(e: Entries, reqs: seq<Request>, net: Request -> NetOutcome, i: nat)
    requires AllCacheable(reqs, net) && i < |reqs| && LastWithPath(reqs, i)
    decreases |reqs|
    ensures reqs[i].path in PutAll(e, reqs, net)
    ensures PutAll(e, reqs, net)[reqs[i].path] == net(reqs[i]).response
  {
    var rest := reqs[1..];
    assert forall q :: q in rest ==> q in reqs;
    if i == 0 {
      assert reqs[0].path !in Paths(rest);
    } else {
      PutAllStores(e[reqs[0].path := net(reqs[0]).response], rest, net, i - 1);
    }
  }

  /** `cache.addAll(requests)` on the cache `name`: every response is stored when
      all of them are acceptable, none otherwise. */
  function Filled(s: Store, name: string, reqs: seq<Request>, net: Request -> NetOutcome): (r: Store)
    requires name in s.caches
    ensures WellFormed(s) ==> WellFormed(r)
    ensures r.names == s.names && r.caches.Keys == s.caches.Keys
    ensures AllCacheable(reqs, net) ==> name in r.caches && r.caches[name].Keys == s.caches[name].Keys + Paths(reqs)
    ensures AllCacheable(reqs, net) ==>
              forall k :: k in s.caches[name] && k !in Paths(reqs) ==> HoldsResponse(r.caches, name, k, s.caches[name][k])
    ensures AllCacheable(reqs, net) ==>
              forall i :: 0 <= i < |reqs| && LastWithPath(reqs, i) ==>
                HoldsResponse(r.caches, name, reqs[i].path, net(reqs[i]).response)
    ensures !AllCacheable(reqs, net) ==> r == s
    ensures forall n :: n in s.caches && n != name ==> r.caches[n] == s.caches[n]
  {
    if AllCacheable(reqs, net) then
      var e := PutAll(s.caches[name], reqs, net);
      assert forall i :: 0 <= i < |reqs| && LastWithPath(reqs, i) ==>
               reqs[i].path in e && e[reqs[i].path] == net(reqs[i]).response by {
        forall i | 0 <= i < |reqs| && LastWithPath(reqs, i)
          ensures reqs[i].path in e && e[reqs[i].path] == net(reqs[i]).response
        {
          PutAllStores(s.caches[name], reqs, net, i);
        }
      }
      Store(s.names, s.caches[name := e])
    else s
  }

  /** With pairwise different paths, `addAll` leaves under each request's path
      that request's own fetched response. */
  lemma FilledStoresEach(s: Store, name: string, reqs: seq<Request>, net: Request -> NetOutcome)
    requires name in s.caches && AllCacheable(reqs, net)
    requires forall i, j :: 0 <= i < j < |reqs| ==> reqs[i].path != reqs[j].path
    ensures forall i :: 0 <= i < |reqs| ==>
              HoldsResponse(Filled(s, name, reqs, net).caches, name, reqs[i].path, net(reqs[i]).response)
  {
    var r := Filled(s, name, reqs, net);
    forall i | 0 <= i < |reqs|
      ensures HoldsResponse(r.caches, name, reqs[i].path, net(reqs[i]).response)
    {
      assert reqs[i] in reqs;
      assert LastWithPath(reqs, i);
    }
  }

  /** The Cache Storage of one worker, changed in place by the event handlers. */
  class Caches {
    var names: seq<string>
    var caches: map<string, Entries>

    function State(): Store
      reads this
    {
      Store(names, caches)
    }

    ghost predicate Valid()
      reads this
    {
      WellFormed(State())
    }

    constructor ()
      ensures Valid() && State() == Empty
    {
      names, caches := [], map[];
    }

    /** The cache names in creation order (`caches.keys()`). */
    method Keys() returns (ks: seq<string>)
      requires Valid()
      ensures Distinct(ks) && forall n :: n in ks <==> n in caches
      ensures ks == names
    {
      ks := names;
    }

    method Open(name: string)
      requires Valid()
      modifies this
      ensures Valid() && State() == Opened(old(State()), name)
    {
      if name !in caches {
        names, caches := names + [name], caches[name := map[]];
      }
    }

    method Put(name: string, req: Request, resp: Response)
      requires Valid() && name in caches
      modifies this
      ensures Valid() && State() == Stored(old(State()), name, req, resp)
    {
      if Cacheable(req, resp) {
        caches := caches[name := caches[name][req.path := resp]];
      }
    }

    method Delete(name: string) returns (deleted: bool)
      modifies this
      ensures State() == Deleted(old(State()), name)
      ensures deleted <==> name in old(caches)
    {
      deleted := name in caches;
      names, caches := Without(names, {name}), caches - {name};
    }

    /** `caches.match(request)`: walks the caches in creation order. */
    method Match(req: Request) returns (r: Option<Response>)
      ensures r == Lookup(State(), req)
    {
      if req.verb != "GET" {
        return None;
      }
      var i := 0;
      while i < |names|
        invariant 0 <= i <= |names|
        invariant MatchIn(names[i..], caches, req.path) == MatchIn(names, caches, req.path)
      {
        var n := names[i];
        if n in caches && req.path in caches[n] {
          return Some(caches[n][req.path]);
        }
        assert names[i..][1..] == names[i + 1..];
        i := i + 1;
      }
      return None;
    }

    /** `cache.addAll(requests)` on the cache `name`, with `net` standing for the
        network: fetches every request, then stores all responses or none. */
    method AddAll(name: string, reqs: seq<Request>, net: Request -> NetOutcome) returns (ok: bool)
      requires Valid() && name in caches
      modifies this
      ensures Valid() && State() == Filled(old(State()), name, reqs, net)
      ensures ok <==> AllCacheable(reqs, net)
    {
      var i := 0;
      while i < |reqs|
        invariant 0 <= i <= |reqs|
        invariant AllCacheable(reqs[..i], net)
      {
        var outcome := net(reqs[i]);
        if !(outcome.Fetched? && outcome.response.Ok() && Cacheable(reqs[i], outcome.response)) {
          assert !AllCacheable(reqs, net);
          return false;
        }
        assert reqs[..i + 1] == reqs[..i] + [reqs[i]];
        i := i + 1;
      }
      assert reqs[..i] == reqs;
      var e := caches[name];
      i := 0;
      while i < |reqs|
        invariant 0 <= i <= |reqs|
        invariant AllCacheable(reqs[i..], net)
        invariant PutAll(e, reqs[i..], net) == PutAll(old(caches[name]), reqs, net)
      {
        assert reqs[i..][1..] == reqs[i + 1..];
        e := e[reqs[i].path := net(reqs[i]).response];
        i := i + 1;
      }
      caches := caches[name := e];
      ok := true;
    }
  }
}
