/**
 * The service worker of the single-page app: an `install` handler that stores the app shell in
 * the current cache, an `activate` handler that deletes every other cache, and a `fetch` handler
 * that answers JSON requests network-first and everything else cache-first.
 *
 * The browser's CacheStorage is a class: the cache names in creation order (the order
 * `caches.keys()` reports and `caches.match` searches) and, per name, the stored responses by
 * URL. Each event is one atomic step; the network is an oracle `string -> Option<Response>`
 * whose `None` is a failed fetch.
 */
module ServiceWorker {
  import opened Wrappers
  import opened Seqs
  import opened Strings

  /** A response; `ok` is a 2xx status. */
  datatype Response = Response(status: int, body: string) {
    predicate Ok() { 200 <= status <= 299 }
  }

  const CacheName := "ecoventure-cache-v1"

  /** The app shell stored at install time. */
  const UrlsToCache: seq<string> :=
    ["/", "/index.html", "/manifest.json", "/icons/icon-192.png", "/icons/icon-512.png"]

  /** A value copy of the storage: cache names in creation order, entries per name. */
  datatype CacheState = CacheState(names: seq<string>, entries: map<string, map<string, Response>>)

  /** Every listed name has a cache and every cache is listed once. */
  predicate WellFormed(s: CacheState) {
    && Distinct(s.names)
    && (forall i :: 0 <= i < |s.names| ==> s.names[i] in s.entries)
    && (forall n :: n in s.entries ==> n in s.names)
  }

  // ---------------------------------------------------------------- sequence helpers

  /** The names with every occurrence of `x` removed. */
  function Without(s: seq<string>, x: string): (r: seq<string>)
    ensures forall n :: n in r <==> n in s && n != x
  {
    if s == [] then [] else (if s[0] == x then [] else [s[0]]) + Without(s[1..], x)
  }

  lemma {:induction false} WithoutAppend(a: seq<string>, b: seq<string>, x: string)
    ensures Without(a + b, x) == Without(a, x) + Without(b, x)
  {
    if a != [] {
      assert (a + b)[0] == a[0] && (a + b)[1..] == a[1..] + b;
      WithoutAppend(a[1..], b, x);
    } else {
      assert a + b == b;
    }
  }

  lemma {:induction false} WithoutAbsent(s: seq<string>, x: string)
    requires x !in s
    ensures Without(s, x) == s
  {
    if s != [] {
      WithoutAbsent(s[1..], x);
      assert [s[0]] + s[1..] == s;
    }
  }

  /** The names equal to the current cache name, in order. */
  function KeepCurrent(s: seq<string>): (r: seq<string>)
    ensures forall n :: n in r ==> n == CacheName
    ensures forall n :: n in r <==> n in s && n == CacheName
  {
    if s == [] then [] else (if s[0] == CacheName then [s[0]] else []) + KeepCurrent(s[1..])
  }

  lemma {:induction false} KeepCurrentSnoc(s: seq<string>, x: string)
    ensures KeepCurrent(s + [x]) == KeepCurrent(s) + (if x == CacheName then [x] else [])
  {
    if s != [] {
      assert (s + [x])[1..] == s[1..] + [x];
      KeepCurrentSnoc(s[1..], x);
    }
  }

  lemma {:induction false} KeepCurrentDistinct(s: seq<string>)
    requires Distinct(s)
    ensures Distinct(KeepCurrent(s)) && |KeepCurrent(s)| <= 1
  {
    if s != [] {
      KeepCurrentDistinct(s[1..]);
      if s[0] == CacheName {
        assert CacheName !in s[1..] by {
          forall i | 0 <= i < |s[1..]| ensures s[1..][i] != s[0] {
            assert s[1..][i] == s[i + 1];
          }
        }
        KeepCurrentAbsent(s[1..]);
      }
    }
  }

  lemma {:induction false} KeepCurrentAbsent(s: seq<string>)
    requires CacheName !in s
    ensures KeepCurrent(s) == []
  {
    if s != [] {
      assert [s[0]] + s[1..] == s;
      KeepCurrentAbsent(s[1..]);
    }
  }

  // ---------------------------------------------------------------- specification

  /** `caches.open(name)`: the named cache, created empty at the end of the list when absent. */
  function Opened(s: CacheState, name: string): (r: CacheState)
    ensures WellFormed(s) ==> WellFormed(r)
    ensures name in r.entries && (name in s.entries ==> r == s)
    ensures name !in s.entries ==> r.names == s.names + [name] && r.entries[name] == map[]
  {
    if name in s.entries then s
    else
      var r := CacheState(s.names + [name], s.entries[name := map[]]);
      assert WellFormed(s) ==> Distinct(r.names) by {
        if WellFormed(s) {
          forall i, j | 0 <= i < j < |r.names| ensures r.names[i] != r.names[j] {
            if j == |s.names| {
              assert r.names[i] == s.names[i] && s.names[i] in s.entries;
            }
          }
        }
      }
      r
  }

  /** Every URL fetched with a 2xx response: the condition under which `addAll` stores anything. */
  predicate AllFetched(urls: seq<string>, network: string -> Option<Response>) {
    forall i :: 0 <= i < |urls| ==> network(urls[i]).Some? && network(urls[i]).value.Ok()
  }

  /** The responses `addAll` stores: one per URL, as the network returned it. */
  function Fetched(urls: seq<string>, network: string -> Option<Response>): (r: map<string, Response>)
    requires AllFetched(urls, network)
    ensures r.Keys == set u | u in urls
    ensures forall u :: u in r ==> Some(r[u]) == network(u)
  {
    map u | u in urls :: network(u).value
  }

  /** The storage after `install`: the current cache opened, then the shell added all-or-nothing. */
  function Installed(s: CacheState, network: string -> Option<Response>): CacheState {
    var o := Opened(s, CacheName);
    if AllFetched(UrlsToCache, network) then
      o.(entries := o.entries[CacheName := o.entries[CacheName] + Fetched(UrlsToCache, network)])
    else o
  }

  /** The storage after `activate`: only the current cache is left, with its contents. */
  function Activated(s: CacheState): CacheState {
    CacheState(KeepCurrent(s.names), map n | n in s.entries && n == CacheName :: s.entries[n])
  }

  /** `caches.match(url)`: the response of the first cache, in creation order, that holds the URL. */
  function MatchIn(names: seq<string>, entries: map<string, map<string, Response>>, url: string)
    : (r: Option<Response>)
    ensures r.None? <==> forall n :: n in names && n in entries ==> url !in entries[n]
    ensures r.Some? ==> exists n :: n in names && n in entries && url in entries[n] && entries[n][url] == r.value
    ensures var i := FirstHolder(names, entries, url);
      r.Some? <==> i < |names|
    ensures var i := FirstHolder(names, entries, url);
      r.Some? ==> r.value == entries[names[i]][url]
  {
    if names == [] then None
    else if HoldsUrl(entries, names[0], url) then Some(entries[names[0]][url])
    else
      var r := MatchIn(names[1..], entries, url);
      assert forall n :: n in names ==> n == names[0] || n in names[1..];
      assert FirstHolder(names, entries, url) == FirstHolder(names[1..], entries, url) + 1;
      r
  }

  /**
   * The position of the first cache, in creation order, that holds the URL; `|names|` when
   * none does.
   */
  function FirstHolder(names: seq<string>, entries: map<string, map<string, Response>>, url: string)
    : (i: nat)
    ensures i <= |names|
    ensures i < |names| ==> HoldsUrl(entries, names[i], url)
    ensures forall j :: 0 <= j < i ==> !HoldsUrl(entries, names[j], url)
  {
    if names == [] then 0
    else if HoldsUrl(entries, names[0], url) then 0
    else
      var i := FirstHolder(names[1..], entries, url);
      assert forall j :: 1 <= j < i + 1 ==> names[j] == names[1..][j - 1];
      i + 1
  }

  /** The cache of that name exists and holds the URL. */
  predicate HoldsUrl(entries: map<string, map<string, Response>>, name: string, url: string) {
    name in entries && url in entries[name]
  }

  /** What the page receives for a request, and whether the network was asked. */
  datatype Served = Served(response: Option<Response>, networkCalled: bool)

  predicate IsJsonRequest(url: string) { Contains(url, ".json") }

  /** The `fetch` handler's answer. */
  function Answer(s: CacheState, url: string, network: string -> Option<Response>): Served {
    if IsJsonRequest(url) then
      if network(url).Some? then Served(network(url), true)
      else Served(MatchIn(s.names, s.entries, url), true)
    else
      var cached := MatchIn(s.names, s.entries, url);
      if cached.Some? then Served(cached, false) else Served(network(url), true)
  }

  // ---------------------------------------------------------------- the storage

  class CacheStorage {
    var names: seq<string>
    var entries: map<string, map<string, Response>>

    function State(): CacheState
      reads this
    {
      CacheState(names, entries)
    }

    ghost predicate Valid()
      reads this
    {
      WellFormed(State())
    }

    constructor ()
      ensures Valid() && names == [] && entries == map[]
    {
      names := [];
      entries := map[];
    }

    /** `caches.open(name)`. */
    method Open(name: string)
      requires Valid()
      modifies this
      ensures Valid()
      ensures State() == Opened(old(State()), name)
    {
      if name !in entries {
        names := names + [name];
        entries := entries[name := map[]];
        assert State() == Opened(old(State()), name);
      }
    }

    /** `cache.addAll(urls)`: stores every response, or nothing when one fetch fails. */
    method AddAll(name: string, urls: seq<string>, network: string -> Option<Response>) returns (ok: bool)
      requires Valid() && name in entries
      modifies this
      ensures Valid() && names == old(names)
      ensures ok == AllFetched(urls, network)
      ensures ok ==> entries == old(entries)[name := old(entries)[name] + Fetched(urls, network)]
      ensures !ok ==> entries == old(entries)
    {
      ok := AllFetched(urls, network);
      if ok {
        entries := entries[name := entries[name] + Fetched(urls, network)];
      }
    }

    /** `caches.delete(name)`: whether a cache of that name existed. */
    method Delete(name: string) returns (deleted: bool)
      modifies this
      ensures old(Valid()) ==> Valid()
      ensures deleted == (name in old(entries))
      ensures names == Without(old(names), name)
      ensures entries == old(entries) - {name}
    {
      deleted := name in entries;
      names := Without(names, name);
      entries := entries - {name};
      if old(Valid()) {
        assert Distinct(names) by { WithoutDistinct(old(names), name); }
        forall i | 0 <= i < |names| ensures names[i] in entries {
          assert names[i] in names;
        }
      }
    }

    /** The `install` event. */
    method Install(network: string -> Option<Response>)
      requires Valid()
      modifies this
      ensures Valid()
      ensures State() == Installed(old(State()), network)
    {
      Open(CacheName);
      ghost var o := State();
      assert o == Opened(old(State()), CacheName);
      var ok := AddAll(CacheName, UrlsToCache, network);
      if ok {
        assert entries == o.entries[CacheName := o.entries[CacheName] + Fetched(UrlsToCache, network)];
      } else {
        assert State() == o;
      }
    }

    /** The `activate` event: every cache whose name is not the current one is deleted. */
    method Activate()
      requires Valid()
      modifies this
      ensures Valid()
      ensures State() == Activated(old(State()))
    {
      var keys := names;
      DeleteOthers(keys);
      RetainedAll(old(entries), keys);
      ActivateKeepsOnlyCurrent(old(State()));
    }

    /** The deletions `activate` issues: one `caches.delete(key)` per key other than the current name. */
    method DeleteOthers(keys: seq<string>)
      requires Distinct(keys) && names == keys
      modifies this
      ensures names == KeepCurrent(keys)
      ensures entries == Retained(old(entries), keys)
    {
      var i := 0;
      while i < |keys|
        invariant 0 <= i <= |keys|
        invariant names == KeepCurrent(keys[..i]) + keys[i..]
        invariant entries == Retained(old(entries), keys[..i])
      {
        DeleteOne(keys, i, old(entries));
        i := i + 1;
      }
      assert keys[..i] == keys && keys[i..] == [];
    }

    /** One turn of the `activate` loop: the key at `i` is deleted unless it is the current name. */
    method DeleteOne(keys: seq<string>, i: nat, ghost start: map<string, map<string, Response>>)
      requires Distinct(keys) && i < |keys|
      requires names == KeepCurrent(keys[..i]) + keys[i..]
      requires entries == Retained(start, keys[..i])
      modifies this
      ensures names == KeepCurrent(keys[..i + 1]) + keys[i + 1..]
      ensures entries == Retained(start, keys[..i + 1])
    {
      var k := keys[i];
      assert keys[..i + 1] == keys[..i] + [k];
      RetainedStep(start, keys[..i], k);
      if k != CacheName {
        ActivateDropStep(keys, i);
        var _ := Delete(k);
      } else {
        ActivateKeepStep(keys, i);
      }
    }

    /** `caches.match(url)`. */
    function Match(url: string): Option<Response>
      reads this
    {
      MatchIn(names, entries, url)
    }

    /**
     * The `fetch` event, which only reads the storage: a URL containing `.json` goes to the
     * network first and falls back to the caches; any other URL is served from the caches and
     * fetched only on a miss.
     */
    method HandleFetch(url: string, network: string -> Option<Response>) returns (served: Served)
      ensures served == Answer(State(), url, network)
    {
      if IsJsonRequest(url) {
        var response := network(url);
        if response.Some? {
          served := Served(response, true);
        } else {
          served := Served(Match(url), true);
        }
      } else {
        var response := Match(url);
        if response.Some? {
          served := Served(response, false);
        } else {
          served := Served(network(url), true);
        }
      }
    }
  }

  /** The caches left once the names in `done` have been visited by `activate`. */
  function Retained(e: map<string, map<string, Response>>, done: seq<string>): map<string, map<string, Response>> {
    map n | n in e && (n == CacheName || n !in done) :: e[n]
  }

  lemma RetainedStep(e: map<string, map<string, Response>>, done: seq<string>, k: string)
    ensures k != CacheName ==> Retained(e, done + [k]) == Retained(e, done) - {k}
    ensures k == CacheName ==> Retained(e, done + [k]) == Retained(e, done)
  {
    assert forall n :: n in done + [k] <==> n in done || n == k;
  }

  lemma RetainedAll(e: map<string, map<string, Response>>, keys: seq<string>)
    requires forall n :: n in e ==> n in keys
    ensures Retained(e, keys) == map n | n in e && n == CacheName :: e[n]
  {
  }

  /** A key of a list without repetitions does not occur after its own position. */
  lemma NotInTail(keys: seq<string>, i: nat)
    requires Distinct(keys) && i < |keys|
    ensures keys[i] !in keys[i + 1..]
  {
  }

  /** Removing the head's value from a list that does not repeat it leaves the tail. */
  lemma WithoutHead(k: string, t: seq<string>)
    requires k !in t
    ensures Without([k] + t, k) == t
  {
    assert ([k] + t)[1..] == t;
    WithoutAbsent(t, k);
  }

  /** The `activate` loop deleting the key at `i`. */
  lemma ActivateDropStep(keys: seq<string>, i: nat)
    requires Distinct(keys) && i < |keys| && keys[i] != CacheName
    ensures Without(KeepCurrent(keys[..i]) + keys[i..], keys[i]) == KeepCurrent(keys[..i + 1]) + keys[i + 1..]
  {
    var k, kept, rest := keys[i], KeepCurrent(keys[..i]), keys[i + 1..];
    assert keys[..i + 1] == keys[..i] + [k];
    KeepCurrentSnoc(keys[..i], k);
    assert KeepCurrent(keys[..i + 1]) == kept;
    assert keys[i..] == [k] + rest;
    NotInTail(keys, i);
    WithoutAppend(kept, [k] + rest, k);
    WithoutAbsent(kept, k);
    WithoutHead(k, rest);
  }

  /** The `activate` loop passing over the current cache's name at `i`. */
  lemma ActivateKeepStep(keys: seq<string>, i: nat)
    requires i < |keys| && keys[i] == CacheName
    ensures KeepCurrent(keys[..i]) + keys[i..] == KeepCurrent(keys[..i + 1]) + keys[i + 1..]
  {
    var k := keys[i];
    assert keys[..i + 1] == keys[..i] + [k];
    KeepCurrentSnoc(keys[..i], k);
    assert keys[i..] == [k] + keys[i + 1..];
  }

  lemma {:induction false} WithoutDistinct(s: seq<string>, x: string)
    requires Distinct(s)
    ensures Distinct(Without(s, x))
  {
    if s != [] {
      assert Distinct(s[1..]) by {
        forall i, j | 0 <= i < j < |s[1..]| ensures s[1..][i] != s[1..][j] {
          assert s[1..][i] == s[i + 1] && s[1..][j] == s[j + 1];
        }
      }
      WithoutDistinct(s[1..], x);
      assert s[0] !in s[1..] by {
        forall i | 0 <= i < |s[1..]| ensures s[1..][i] != s[0] {
          assert s[1..][i] == s[i + 1];
        }
      }
    }
  }

  // ---------------------------------------------------------------- properties

  /**
   * After `install` the current cache exists; when every shell URL was fetched it holds each of
   * them with the network's response, otherwise its contents are as before. Other caches are
   * untouched.
   */
  lemma InstallStoresShell(s: CacheState, network: string -> Option<Response>)
    requires WellFormed(s)
    ensures var t := Installed(s, network);
      && WellFormed(t) && CacheName in t.entries
      && (AllFetched(UrlsToCache, network) ==>
            forall i :: 0 <= i < |UrlsToCache| ==>
              UrlsToCache[i] in t.entries[CacheName] && Some(t.entries[CacheName][UrlsToCache[i]]) == network(UrlsToCache[i]))
      && (!AllFetched(UrlsToCache, network) ==>
            t.entries[CacheName] == (if CacheName in s.entries then s.entries[CacheName] else map[]))
      && (forall n :: n in s.entries && n != CacheName ==> n in t.entries && t.entries[n] == s.entries[n])
  {
  }

  /** Installing again with the same network answers changes nothing. */
  lemma InstallIdempotent(s: CacheState, network: string -> Option<Response>)
    ensures Installed(Installed(s, network), network) == Installed(s, network)
  {
    var t := Installed(s, network);
    assert Opened(t, CacheName) == t;
    if AllFetched(UrlsToCache, network) {
      var f := Fetched(UrlsToCache, network);
      var c := t.entries[CacheName];
      assert c + f == c;
    }
  }

  /** After `activate` the current cache is the only one left, with its contents unchanged. */
  lemma ActivateKeepsOnlyCurrent(s: CacheState)
    requires WellFormed(s)
    ensures var t := Activated(s);
      && WellFormed(t)
      && t.entries.Keys <= {CacheName}
      && |t.names| <= 1
      && (CacheName in s.entries <==> CacheName in t.entries)
      && (CacheName in s.entries ==> t.entries[CacheName] == s.entries[CacheName])
  {
    KeepCurrentDistinct(s.names);
    var t := Activated(s);
    forall i | 0 <= i < |t.names| ensures t.names[i] in t.entries {
      assert t.names[i] in t.names;
    }
  }

  /** `activate` is idempotent. */
  lemma ActivateIdempotent(s: CacheState)
    ensures Activated(Activated(s)) == Activated(s)
  {
    KeepCurrentOnly(KeepCurrent(s.names));
  }

  lemma {:induction false} KeepCurrentOnly(s: seq<string>)
    requires forall n :: n in s ==> n == CacheName
    ensures KeepCurrent(s) == s
  {
    if s != [] {
      assert s[0] in s;
      assert forall n :: n in s[1..] ==> n in s;
      KeepCurrentOnly(s[1..]);
      assert [s[0]] + s[1..] == s;
    }
  }

  /**
   * A JSON request whose fetch succeeds gets the network's response, whatever the caches hold;
   * when the fetch fails it gets the cache match, which may be absent.
   */
  lemma JsonIsNetworkFirst(s1: CacheState, s2: CacheState, url: string, network: string -> Option<Response>)
    requires IsJsonRequest(url)
    ensures network(url).Some? ==>
              Answer(s1, url, network) == Answer(s2, url, network) == Served(network(url), true)
    ensures network(url).None? ==>
              Answer(s1, url, network).response == MatchIn(s1.names, s1.entries, url)
  {
  }

  /**
   * A request for any other URL that some cache holds gets the first cached response without a
   * network call; on a miss it gets whatever the network returns.
   */
  lemma StaticIsCacheFirst(s: CacheState, url: string, network: string -> Option<Response>)
    requires !IsJsonRequest(url)
    ensures var a := Answer(s, url, network);
      && (a.networkCalled <==> forall n :: n in s.names && n in s.entries ==> url !in s.entries[n])
      && (a.networkCalled ==> a.response == network(url))
      && (!a.networkCalled ==> a.response == MatchIn(s.names, s.entries, url) && a.response.Some?)
  {
  }

  /**
   * After install and activate with a working network, every shell URL is answered offline
   * with the response the install fetched: from the cache with no network call, except for
   * `/manifest.json`, a JSON request, which tries the network first and falls back on the cache.
   */
  lemma ShellServedOffline(s: CacheState, network: string -> Option<Response>, offline: string -> Option<Response>)
    requires WellFormed(s) && AllFetched(UrlsToCache, network)
    requires forall u :: offline(u).None?
    ensures var t := Activated(Installed(s, network));
      forall i :: 0 <= i < |UrlsToCache| ==>
        && Answer(t, UrlsToCache[i], offline).response == network(UrlsToCache[i])
        && (!IsJsonRequest(UrlsToCache[i]) ==> !Answer(t, UrlsToCache[i], offline).networkCalled)
  {
    var t0 := Installed(s, network);
    InstallStoresShell(s, network);
    ActivateKeepsOnlyCurrent(t0);
    var t := Activated(t0);
    assert CacheName in t.names;
    forall i | 0 <= i < |UrlsToCache|
      ensures Answer(t, UrlsToCache[i], offline).response == network(UrlsToCache[i])
      ensures !IsJsonRequest(UrlsToCache[i]) ==> !Answer(t, UrlsToCache[i], offline).networkCalled
    {
      var u := UrlsToCache[i];
      assert t.entries[CacheName][u] == t0.entries[CacheName][u];
      var m := MatchIn(t.names, t.entries, u);
      assert m.Some?;
    }
  }
}
