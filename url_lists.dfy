/** Arrays of entities treated as caches keyed by `url`: the `some`, `find`,
    `findIndex` and "push unless present" idioms every store uses, and the
    url-to-entity `Map` the planet store and the detail pages build. */
module UrlLists {
  import opened Entities

  /** `s.some(x => x.url === u)` */
  predicate HasUrl(s: seq<Entity>, u: Url) {
    exists i :: 0 <= i < |s| && s[i].url == u
  }

  /** The urls of `s` as a set. */
  function UrlSet(s: seq<Entity>): (r: set<Url>)
    ensures forall u :: u in r <==> HasUrl(s, u)
  {
    if s == [] then {} else UrlSet(s[..|s| - 1]) + {s[|s| - 1].url}
  }

  /** No two entries share a `url`: the invariant of every cache. */
  predicate UniqueUrls(s: seq<Entity>) {
    forall i, j :: 0 <= i < j < |s| ==> s[i].url != s[j].url
  }

  /** `s.findIndex(x => x.url === u)`: the first position holding `u`, or -1. */
  function FirstIndex(s: seq<Entity>, u: Url): (i: int)
    ensures -1 <= i < |s|
    ensures i == -1 <==> !HasUrl(s, u)
    ensures 0 <= i ==> s[i].url == u && forall j :: 0 <= j < i ==> s[j].url != u
  {
    if s == [] then -1
    else if s[0].url == u then 0
    else
      var k := FirstIndex(s[1..], u);
      assert forall j :: 1 <= j < |s| ==> s[j] == s[1..][j - 1];
      if k < 0 then -1 else k + 1
  }

  /** `s.find(x => x.url === u) ?? null` */
  function FindByUrl(s: seq<Entity>, u: Url): (r: Option<Entity>)
    ensures r.None? <==> !HasUrl(s, u)
    ensures r.Some? ==> r.value in s && r.value.url == u
    ensures r.Some? ==> exists i :: 0 <= i < |s| && s[i] == r.value
                                    && forall j :: 0 <= j < i ==> s[j].url != u
  {
    var i := FirstIndex(s, u);
    if i < 0 then None else Some(s[i])
  }

  /** `if (!cache.some(x => x.url === e.url)) cache.push(e)`: first write wins. */
  function PushIfAbsent(cache: seq<Entity>, e: Entity): (r: seq<Entity>)
    ensures HasUrl(r, e.url)
    ensures HasUrl(cache, e.url) ==> r == cache
    ensures !HasUrl(cache, e.url) ==> r == cache + [e]
    ensures UniqueUrls(cache) ==> UniqueUrls(r)
  {
    if HasUrl(cache, e.url) then cache
    else
      assert (cache + [e])[|cache|] == e;
      cache + [e]
  }

  /** The position of the last entry holding `u`. */
  function LastIndex(s: seq<Entity>, u: Url): (i: nat)
    requires HasUrl(s, u)
    ensures i < |s| && s[i].url == u
    ensures forall j :: i < j < |s| ==> s[j].url != u
  {
    if s[|s| - 1].url == u then |s| - 1
    else
      assert HasUrl(s[..|s| - 1], u) by {
        var k :| 0 <= k < |s| && s[k].url == u;
        assert s[..|s| - 1][k] == s[k];
      }
      LastIndex(s[..|s| - 1], u)
  }

  /** `new Map(s.map(x => [x.url, x]))`, equivalently a loop of `map.set(x.url, x)`:
      keyed by url, a later entry overwriting an earlier one. */
  function IndexByUrl(s: seq<Entity>): (m: map<Url, Entity>)
  {
    if s == [] then map[] else IndexByUrl(s[..|s| - 1])[s[|s| - 1].url := s[|s| - 1]]
  }

  /** The index holds exactly the urls of `s`, each bound to the LAST entry with
      that url. */
  lemma {:induction false} IndexByUrlLastWins(s: seq<Entity>, u: Url)
    ensures u in IndexByUrl(s) <==> HasUrl(s, u)
    ensures HasUrl(s, u) ==> IndexByUrl(s)[u] == s[LastIndex(s, u)]
  {
    if s != [] {
      var init := s[..|s| - 1];
      IndexByUrlLastWins(init, u);
      assert forall k :: 0 <= k < |init| ==> init[k] == s[k];
      if HasUrl(s, u) && s[|s| - 1].url != u {
        var k :| 0 <= k < |s| && s[k].url == u;
        assert init[k].url == u;
      }
    }
  }

  /** On a cache without duplicates the index agrees with `find`. */
  lemma IndexAgreesWithFind(s: seq<Entity>, u: Url)
    requires UniqueUrls(s)
    ensures u in IndexByUrl(s) <==> FindByUrl(s, u).Some?
    ensures u in IndexByUrl(s) ==> IndexByUrl(s)[u] == FindByUrl(s, u).value
  {
    IndexByUrlLastWins(s, u);
  }
}
