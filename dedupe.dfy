/** The first step of every batch resolution:
    `Array.from(new Set(urls)).filter(u => !cache.some(x => x.url === u))`. */
module Dedupe {
  import opened Entities
  import opened UrlLists

  predicate NoDuplicates(s: seq<Url>) {
    forall i, j :: 0 <= i < j < |s| ==> s[i] != s[j]
  }

  /** The position of the first occurrence of `u` in `s`. */
  function FirstPos(s: seq<Url>, u: Url): (p: nat)
    requires u in s
    ensures p < |s| && s[p] == u
    ensures forall j :: 0 <= j < p ==> s[j] != u
  {
    if s[0] == u then 0 else 1 + FirstPos(s[1..], u)
  }

  lemma FirstPosOfPrefix(s: seq<Url>, n: nat, u: Url)
    requires n <= |s| && u in s[..n]
    ensures u in s && FirstPos(s, u) == FirstPos(s[..n], u)
  {
    var p := FirstPos(s[..n], u);
    assert s[p] == u;
    assert forall j :: 0 <= j < p ==> s[j] == s[..n][j];
  }

  /** `Array.from(new Set(urls))`: each url once, in order of first occurrence. */
  function Distinct(urls: seq<Url>): (r: seq<Url>)
    ensures NoDuplicates(r)
    ensures forall u :: u in r <==> u in urls
    ensures forall i, j :: 0 <= i < j < |r| ==> FirstPos(urls, r[i]) < FirstPos(urls, r[j])
  {
    if urls == [] then []
    else
      var init := urls[..|urls| - 1];
      var last := urls[|urls| - 1];
      var d := Distinct(init);
      assert forall u :: u in urls <==> u in init || u == last by {
        assert urls == init + [last];
      }
      forall u | u in d ensures FirstPos(urls, u) == FirstPos(init, u) {
        FirstPosOfPrefix(urls, |urls| - 1, u);
      }
      if last in d then d
      else
        assert FirstPos(urls, last) == |urls| - 1;
        d + [last]
  }

  /** `.filter(u => !cache.some(x => x.url === u))`: order and uniqueness kept. */
  function WithoutCached(s: seq<Url>, cache: seq<Entity>): (r: seq<Url>)
    ensures forall u :: u in r <==> u in s && !HasUrl(cache, u)
    ensures NoDuplicates(s) ==> NoDuplicates(r)
    ensures NoDuplicates(s) ==>
      forall i, j :: 0 <= i < j < |r| ==> FirstPos(s, r[i]) < FirstPos(s, r[j])
  {
    if s == [] then []
    else
      var rest := WithoutCached(s[1..], cache);
      assert forall u :: u in s <==> u == s[0] || u in s[1..] by {
        assert s == [s[0]] + s[1..];
      }
      TailFacts(s);
      if HasUrl(cache, s[0]) then rest else [s[0]] + rest
  }

  lemma TailFacts(s: seq<Url>)
    requires s != []
    ensures NoDuplicates(s) ==> NoDuplicates(s[1..]) && s[0] !in s[1..]
    ensures NoDuplicates(s) ==> forall u :: u in s[1..] ==> FirstPos(s, u) == 1 + FirstPos(s[1..], u)
  {
    if NoDuplicates(s) {
      forall u | u in s[1..] ensures s[0] != u {
        var k :| 0 <= k < |s[1..]| && s[1..][k] == u;
        assert s[k + 1] == u;
      }
    }
  }

  /** The urls a batch requests: the distinct input urls absent from `cache`, in
      order of first occurrence in the input. */
  function NotLoaded(urls: seq<Url>, cache: seq<Entity>): (r: seq<Url>)
    ensures NoDuplicates(r)
    ensures forall u :: u in r <==> u in urls && !HasUrl(cache, u)
    ensures forall i, j :: 0 <= i < j < |r| ==> FirstPos(urls, r[i]) < FirstPos(urls, r[j])
  {
    var d := Distinct(urls);
    var r := WithoutCached(d, cache);
    forall i, j | 0 <= i < j < |r| ensures FirstPos(urls, r[i]) < FirstPos(urls, r[j]) {
      var a, b := FirstPos(d, r[i]), FirstPos(d, r[j]);
      assert a < b;
    }
    r
  }

  /** A single url is requested exactly when it is not cached. */
  lemma NotLoadedSingle(u: Url, cache: seq<Entity>)
    ensures NotLoaded([u], cache) == if HasUrl(cache, u) then [] else [u]
  {
    assert [u][..0] == [] && [u][1..] == [];
    assert Distinct([u]) == [u];
    assert WithoutCached([u], cache) == if HasUrl(cache, u) then [] else [u];
  }
}
