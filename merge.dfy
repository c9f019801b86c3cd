/** The two "replace if present, append otherwise" rules a batch applies to a
    store's list when one fetched entity arrives. */
module Merge {
  import opened Entities
  import opened UrlLists

  /** Vehicles, planets and people: `findIndex`, then overwrite that one slot or
      append at the end. */
  function ReplaceFirstOrAppend(list: seq<Entity>, e: Entity): (r: seq<Entity>)
    ensures HasUrl(list, e.url) ==>
      var i := FirstIndex(list, e.url);
      |r| == |list| && r[i] == e && forall j :: 0 <= j < |list| && j != i ==> r[j] == list[j]
    ensures !HasUrl(list, e.url) ==> |r| == |list| + 1 && r[..|list|] == list && r[|list|] == e
  {
    var i := FirstIndex(list, e.url);
    if i >= 0 then list[i := e] else list + [e]
  }

  /** Films: `prev.map(x => x.url === e.url ? e : x)` when some entry matches,
      so EVERY entry with the url is overwritten; otherwise append. */
  function ReplaceEveryOrAppend(list: seq<Entity>, e: Entity): (r: seq<Entity>)
    ensures HasUrl(list, e.url) ==>
      |r| == |list| && forall j :: 0 <= j < |list| ==> r[j] == (if list[j].url == e.url then e else list[j])
    ensures !HasUrl(list, e.url) ==> |r| == |list| + 1 && r[..|list|] == list && r[|list|] == e
  {
    if HasUrl(list, e.url) then
      seq(|list|, j requires 0 <= j < |list| => if list[j].url == e.url then e else list[j])
    else list + [e]
  }

  /** A merge keeps the length when the url is present and grows it by exactly
      one otherwise; afterwards the url is present. */
  lemma MergeLength(list: seq<Entity>, e: Entity)
    ensures |ReplaceFirstOrAppend(list, e)| == |list| + (if HasUrl(list, e.url) then 0 else 1)
    ensures |ReplaceEveryOrAppend(list, e)| == |list| + (if HasUrl(list, e.url) then 0 else 1)
    ensures HasUrl(ReplaceFirstOrAppend(list, e), e.url)
    ensures HasUrl(ReplaceEveryOrAppend(list, e), e.url)
  {
    var r1, r2 := ReplaceFirstOrAppend(list, e), ReplaceEveryOrAppend(list, e);
    if HasUrl(list, e.url) {
      var i := FirstIndex(list, e.url);
      assert r1[i].url == e.url && r2[i].url == e.url;
    } else {
      assert r1[|list|] == e && r2[|list|] == e;
    }
  }

  /** The urls present after a merge are the urls present before, plus the
      fetched entity's. Hence merging several entities yields the same set of
      urls whatever order they complete in. */
  lemma MergeUrls(list: seq<Entity>, e: Entity)
    ensures UrlSet(ReplaceFirstOrAppend(list, e)) == UrlSet(list) + {e.url}
    ensures UrlSet(ReplaceEveryOrAppend(list, e)) == UrlSet(list) + {e.url}
  {
    MergeLength(list, e);
    var r1, r2 := ReplaceFirstOrAppend(list, e), ReplaceEveryOrAppend(list, e);
    forall u ensures HasUrl(r1, u) <==> HasUrl(list, u) || u == e.url {
      if HasUrl(list, u) && u != e.url {
        var k :| 0 <= k < |list| && list[k].url == u;
        assert r1[k] == list[k];
      }
      if HasUrl(r1, u) && u != e.url {
        var k :| 0 <= k < |r1| && r1[k].url == u;
        assert k < |list| && r1[k] == list[k];
      }
    }
    forall u ensures HasUrl(r2, u) <==> HasUrl(list, u) || u == e.url {
      if HasUrl(list, u) && u != e.url {
        var k :| 0 <= k < |list| && list[k].url == u;
        assert r2[k] == list[k];
      }
      if HasUrl(r2, u) && u != e.url {
        var k :| 0 <= k < |r2| && r2[k].url == u;
        assert k < |list| && r2[k] == list[k];
      }
    }
  }

  /** Merging never introduces a duplicate url into a duplicate-free list. */
  lemma MergeKeepsUnique(list: seq<Entity>, e: Entity)
    requires UniqueUrls(list)
    ensures UniqueUrls(ReplaceFirstOrAppend(list, e))
    ensures UniqueUrls(ReplaceEveryOrAppend(list, e))
  {
    var r1, r2 := ReplaceFirstOrAppend(list, e), ReplaceEveryOrAppend(list, e);
    if HasUrl(list, e.url) {
      var i := FirstIndex(list, e.url);
      forall j, k | 0 <= j < k < |r1| ensures r1[j].url != r1[k].url {
        assert r1[j].url == list[j].url && r1[k].url == list[k].url;
      }
      forall j, k | 0 <= j < k < |r2| ensures r2[j].url != r2[k].url {
        assert r2[j].url == list[j].url && r2[k].url == list[k].url;
      }
    } else {
      forall j, k | 0 <= j < k < |r1| ensures r1[j].url != r1[k].url {
        if k == |list| { assert r1[j] == list[j]; }
      }
    }
  }

  /** Receiving the same entity twice has the effect of receiving it once
      (first-slot rule). */
  lemma FirstIdempotent(list: seq<Entity>, e: Entity)
    ensures ReplaceFirstOrAppend(ReplaceFirstOrAppend(list, e), e) == ReplaceFirstOrAppend(list, e)
  {
    MergeLength(list, e);
    var r1 := ReplaceFirstOrAppend(list, e);
    var i := FirstIndex(list, e.url);
    var i1 := FirstIndex(r1, e.url);
    if i >= 0 {
      assert r1[i].url == e.url;
      assert forall j :: 0 <= j < i ==> r1[j] == list[j];
      assert i1 == i;
    } else {
      assert forall j :: 0 <= j < |list| ==> r1[j] == list[j];
      assert r1[|list|] == e;
      assert i1 == |list|;
    }
  }

  /** The same for the every-slot rule of the film store. */
  lemma EveryIdempotent(list: seq<Entity>, e: Entity)
    ensures ReplaceEveryOrAppend(ReplaceEveryOrAppend(list, e), e) == ReplaceEveryOrAppend(list, e)
  {
    MergeLength(list, e);
    var r := ReplaceEveryOrAppend(list, e);
    var rr := ReplaceEveryOrAppend(r, e);
    assert |rr| == |r|;
    forall j | 0 <= j < |r| ensures rr[j] == r[j] {
      if j < |list| && HasUrl(list, e.url) {
        assert r[j] == (if list[j].url == e.url then e else list[j]);
      } else if j < |list| {
        assert r[j] == list[j];
      }
    }
  }

  /** On a duplicate-free list both rules coincide; they differ only when the
      list already holds the url twice. */
  lemma MergeRulesAgreeWhenUnique(list: seq<Entity>, e: Entity)
    requires UniqueUrls(list)
    ensures ReplaceEveryOrAppend(list, e) == ReplaceFirstOrAppend(list, e)
  {
    var r1, r2 := ReplaceFirstOrAppend(list, e), ReplaceEveryOrAppend(list, e);
    if HasUrl(list, e.url) {
      var i := FirstIndex(list, e.url);
      forall j | 0 <= j < |list| ensures r1[j] == r2[j] {
        if i < j { assert list[i].url != list[j].url; }
      }
    }
  }

  /** A list holding one url twice: the film rule overwrites both copies, the
      other rule only the first. */
  lemma MergeRulesDifferOnDuplicates(a: Entity, b: Entity, e: Entity)
    requires a.url == e.url && b.url == e.url && b != e
    ensures ReplaceEveryOrAppend([a, b], e) == [e, e]
    ensures ReplaceFirstOrAppend([a, b], e) == [e, b]
  {
    assert HasUrl([a, b], e.url) by { assert [a, b][0].url == e.url; }
  }
}
