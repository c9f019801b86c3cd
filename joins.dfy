/** The join every detail page computes to show referenced entities:
    `if (!urls.length) return [];
     const map = new Map(list.map(x => [x.url, x]));
     return urls.map(u => map.get(u)).filter(x => !!x);` */
module Joins {
  import opened Entities
  import opened UrlLists

  /** The computed value itself. */
  function Resolve(urls: seq<Url>, list: seq<Entity>): seq<Entity>
  {
    if |urls| == 0 then [] else Lookup(urls, IndexByUrl(list))
  }

  /** `urls.map(u => index.get(u)).filter(x => !!x)` */
  function Lookup(urls: seq<Url>, index: map<Url, Entity>): seq<Entity>
  {
    if urls == [] then []
    else (if urls[0] in index then [index[urls[0]]] else []) + Lookup(urls[1..], index)
  }

  /** Independent reference: the referenced urls that have an entity in `list`,
      in reference order. */
  function Loaded(urls: seq<Url>, list: seq<Entity>): (r: seq<Url>)
    ensures |r| <= |urls|
    ensures forall u :: u in r <==> u in urls && HasUrl(list, u)
  {
    if urls == [] then []
    else
      assert forall u :: u in urls <==> u == urls[0] || u in urls[1..] by {
        assert urls == [urls[0]] + urls[1..];
      }
      (if HasUrl(list, urls[0]) then [urls[0]] else []) + Loaded(urls[1..], list)
  }

  lemma {:induction false} LookupIsLoaded(urls: seq<Url>, list: seq<Entity>)
    ensures var r := Lookup(urls, IndexByUrl(list));
      var l := Loaded(urls, list);
      |r| == |l| && forall k :: 0 <= k < |r| ==> HasUrl(list, l[k]) && r[k] == list[LastIndex(list, l[k])]
  {
    if urls != [] {
      var index, u := IndexByUrl(list), urls[0];
      LookupIsLoaded(urls[1..], list);
      IndexByUrlLastWins(list, u);
      var r, l := Lookup(urls, index), Loaded(urls, list);
      var rest, restLoaded := Lookup(urls[1..], index), Loaded(urls[1..], list);
      var shift := if HasUrl(list, u) then 1 else 0;
      if HasUrl(list, u) {
        assert r == [index[u]] + rest && l == [u] + restLoaded;
      } else {
        assert r == rest && l == restLoaded;
      }
      forall k | shift <= k < |r|
        ensures HasUrl(list, l[k]) && r[k] == list[LastIndex(list, l[k])]
      {
        assert r[k] == rest[k - shift] && l[k] == restLoaded[k - shift];
      }
    }
  }

  /** What a join promises: the referenced urls that are loaded, in reference
      order, each bound to the last list entry with that url; unloaded urls are
      dropped, so it is never longer than the reference array. */
  predicate IsJoin(r: seq<Entity>, urls: seq<Url>, list: seq<Entity>)
  {
    var l := Loaded(urls, list);
    && |r| == |l| <= |urls|
    && (forall k :: 0 <= k < |r| ==> r[k].url == l[k] && HasUrl(list, l[k]) && r[k] == list[LastIndex(list, l[k])])
    && (forall e :: e in r ==> e in list && e.url in urls)
  }

  lemma ResolveSpec(urls: seq<Url>, list: seq<Entity>)
    ensures IsJoin(Resolve(urls, list), urls, list)
  {
    LookupIsLoaded(urls, list);
  }

  lemma {:induction false} LookupInEmptyIndex(urls: seq<Url>)
    ensures Lookup(urls, map[]) == []
  {
    if urls != [] { LookupInEmptyIndex(urls[1..]); }
  }

  /** With no references, or nothing loaded, the join is empty. */
  lemma ResolveEmpty(urls: seq<Url>, list: seq<Entity>)
    requires urls == [] || list == []
    ensures Resolve(urls, list) == []
  {
    LookupInEmptyIndex(urls);
  }
}
