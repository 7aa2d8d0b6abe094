/**
 * The browser's CacheStorage as the service worker uses it: named caches,
 * each a map from URL to response, listed in the order they were created.
 * `caches.match` searches every cache in that order and answers with the
 * first entry it finds; `caches.open` creates a missing cache at the end of
 * the list; `caches.delete` removes a cache with all its entries.
 */
module CacheStore {
  import opened Wrappers
  import opened Http

  /** The contents of one named cache. */
  type Entries = map<Url, Response>

  /** `names` lists the caches in creation order; `caches` holds their contents. */
  datatype Store = Store(names: seq<string>, caches: map<string, Entries>)

  predicate Distinct(xs: seq<string>)
  {
    forall i, j :: 0 <= i < j < |xs| ==> xs[i] != xs[j]
  }

  /** Every cache is listed exactly once, and only existing caches are listed. */
  predicate Valid(s: Store)
  {
    && Distinct(s.names)
    && (forall n :: n in s.names ==> n in s.caches)
    && (forall n :: n in s.caches ==> n in s.names)
  }

  /** Cache `name` exists and holds an entry for `url`. */
  predicate Holds(caches: map<string, Entries>, name: string, url: Url)
  {
    name in caches && url in caches[name]
  }

  /** First-match search of the caches `names`, in order. */
  function Lookup(names: seq<string>, caches: map<string, Entries>, url: Url): Option<Response>
  {
    if names == [] then None
    else if Holds(caches, names[0], url) then Some(caches[names[0]][url])
    else Lookup(names[1..], caches, url)
  }

  /** `caches.match(url)`: search every cache of the store. */
  function Match(s: Store, url: Url): Option<Response>
  {
    Lookup(s.names, s.caches, url)
  }

  /** `xs` with every occurrence of `x` removed. */
  function Without(xs: seq<string>, x: string): (r: seq<string>)
    ensures forall y :: y in r <==> y in xs && y != x
  {
    if xs == [] then []
    else
      assert forall y :: y in xs <==> y == xs[0] || y in xs[1..];
      if xs[0] == x then Without(xs[1..], x) else [xs[0]] + Without(xs[1..], x)
  }

  /** Removing a name from a list without repetitions leaves it without repetitions. */
  lemma {:induction false} WithoutKeepsDistinct(xs: seq<string>, x: string)
    requires Distinct(xs)
    ensures Distinct(Without(xs, x))
  {
    if xs != [] {
      forall i, j | 0 <= i < j < |xs[1..]| ensures xs[1..][i] != xs[1..][j] {
        assert xs[1..][i] == xs[i + 1] && xs[1..][j] == xs[j + 1];
      }
      WithoutKeepsDistinct(xs[1..], x);
      if xs[0] != x {
        forall k | 0 <= k < |xs[1..]| ensures xs[1..][k] != xs[0] {
          assert xs[1..][k] == xs[k + 1];
        }
        DistinctCons(xs[0], Without(xs[1..], x));
      }
    }
  }

  lemma DistinctCons(x: string, rest: seq<string>)
    requires x !in rest && Distinct(rest)
    ensures Distinct([x] + rest)
  {
  }

  /** `caches.open(name)`: creates an empty cache `name` if there is none. */
  function Open(s: Store, name: string): (r: Store)
    requires Valid(s)
    ensures Valid(r)
    ensures r.caches.Keys == s.caches.Keys + {name}
    ensures forall n :: n in s.caches ==> r.caches[n] == s.caches[n]
    ensures name !in s.caches ==> r.caches[name] == map[] && r.names == s.names + [name]
    ensures name in s.caches ==> r.names == s.names
  {
    if name in s.caches then s
    else
      var names := s.names + [name];
      forall i, j | 0 <= i < j < |names| ensures names[i] != names[j] {
        assert names[i] in s.names;
      }
      Store(names, s.caches[name := map[]])
  }

  /** `cache.put(url, response)` on the open cache `name`. */
  function Put(s: Store, name: string, url: Url, response: Response): (r: Store)
    requires Valid(s) && name in s.caches
    ensures Valid(r) && r.names == s.names && r.caches.Keys == s.caches.Keys
    ensures r.caches[name].Keys == s.caches[name].Keys + {url}
    ensures r.caches[name][url] == response
    ensures forall u :: u in s.caches[name] && u != url ==> r.caches[name][u] == s.caches[name][u]
    ensures forall n :: n in s.caches && n != name ==> r.caches[n] == s.caches[n]
  {
    Store(s.names, s.caches[name := s.caches[name][url := response]])
  }

  /** `caches.delete(name)`: removes the cache and all its entries; no-op if absent. */
  function Delete(s: Store, name: string): (r: Store)
    requires Valid(s)
    ensures Valid(r)
    ensures r.caches.Keys == s.caches.Keys - {name}
    ensures forall n :: n in r.caches ==> r.caches[n] == s.caches[n]
  {
    WithoutKeepsDistinct(s.names, name);
    Store(Without(s.names, name), s.caches - {name})
  }

  /**
   * The search finds nothing exactly when no listed cache holds `url`, and
   * whatever it finds is the entry of some listed cache.
   */
  lemma {:induction false} LookupFound(names: seq<string>, caches: map<string, Entries>, url: Url)
    ensures Lookup(names, caches, url).None? <==> forall n :: n in names ==> !Holds(caches, n, url)
    ensures Lookup(names, caches, url).Some? ==>
              exists n :: n in names && Holds(caches, n, url) && caches[n][url] == Lookup(names, caches, url).value
  {
    if names != [] {
      LookupFound(names[1..], caches, url);
      assert forall n :: n in names <==> n == names[0] || n in names[1..];
    }
  }

  /** The search answers with the entry of the first listed cache that holds `url`. */
  lemma {:induction false} LookupFirstHolder(names: seq<string>, caches: map<string, Entries>, url: Url, i: nat)
    requires i < |names| && Holds(caches, names[i], url)
    requires forall j :: 0 <= j < i ==> !Holds(caches, names[j], url)
    ensures Lookup(names, caches, url) == Some(caches[names[i]][url])
  {
    if i > 0 {
      assert !Holds(caches, names[0], url);
      forall j | 0 <= j < i - 1 ensures !Holds(caches, names[1..][j], url) {
        assert names[1..][j] == names[j + 1];
      }
      LookupFirstHolder(names[1..], caches, url, i - 1);
    }
  }

  /** Searching for one URL does not look at the entries stored under any other URL. */
  lemma {:induction false} LookupOtherUrl(names: seq<string>, caches: map<string, Entries>, name: string, url: Url, response: Response, other: Url)
    requires name in caches && other != url
    ensures Lookup(names, caches[name := caches[name][url := response]], other) == Lookup(names, caches, other)
  {
    if names != [] {
      LookupOtherUrl(names[1..], caches, name, url, response, other);
    }
  }

  /** Listing a new, empty cache at the end changes no search. */
  lemma {:induction false} LookupAppendEmpty(names: seq<string>, caches: map<string, Entries>, name: string, url: Url)
    requires name !in caches
    ensures Lookup(names + [name], caches[name := map[]], url) == Lookup(names, caches, url)
  {
    if names == [] {
      assert Lookup([name], caches[name := map[]], url) == Lookup([], caches[name := map[]], url);
    } else {
      assert (names + [name])[1..] == names[1..] + [name];
      LookupAppendEmpty(names[1..], caches, name, url);
    }
  }

  /** `caches.open` never changes what `caches.match` answers. */
  lemma OpenKeepsMatches(s: Store, name: string, url: Url)
    requires Valid(s)
    ensures Match(Open(s, name), url) == Match(s, url)
  {
    if name !in s.caches {
      LookupAppendEmpty(s.names, s.caches, name, url);
    }
  }

  /** Removing a cache that does not hold `url` from the search list changes no search for `url`. */
  lemma {:induction false} LookupWithout(names: seq<string>, caches: map<string, Entries>, name: string, url: Url)
    requires !Holds(caches, name, url)
    ensures Lookup(Without(names, name), caches - {name}, url) == Lookup(names, caches, url)
  {
    if names != [] {
      LookupWithout(names[1..], caches, name, url);
    }
  }

  /**
   * `caches.delete` of a cache that does not hold `url` leaves the others in
   * their order, so `caches.match(url)` answers as before.
   */
  lemma DeleteKeepsOtherMatches(s: Store, name: string, url: Url)
    requires Valid(s) && !Holds(s.caches, name, url)
    ensures Match(Delete(s, name), url) == Match(s, url)
  {
    LookupWithout(s.names, s.caches, name, url);
  }

  /**
   * After a `put` into a cache of the store, a URL that no cache held before
   * is found, with the response just stored.
   */
  lemma PutThenMatch(s: Store, name: string, url: Url, response: Response)
    requires Valid(s) && name in s.caches && Match(s, url).None?
    ensures Match(Put(s, name, url, response), url) == Some(response)
  {
    var r := Put(s, name, url, response);
    LookupFound(s.names, s.caches, url);
    var i :| 0 <= i < |s.names| && s.names[i] == name;
    forall j | 0 <= j < i ensures !Holds(r.caches, r.names[j], url) {
      assert s.names[j] in s.names;
    }
    LookupFirstHolder(r.names, r.caches, url, i);
  }
}
