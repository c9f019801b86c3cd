/** The order the film list is stored in: `results.slice().sort((a, b) =>
    a.episode_id - b.episode_id)`. The comparator is a proper numeric one and
    `Array.prototype.sort` is stable, so the result is THE stable ascending
    sort by episode id; it is defined here as an insertion sort. */
module EpisodeOrder {
  import opened Entities

  /** The list endpoint of films returns films only. */
  predicate AllFilms(s: seq<Entity>) {
    forall i :: 0 <= i < |s| ==> s[i].Film?
  }

  predicate SortedByEpisode(s: seq<Entity>)
    requires AllFilms(s)
  {
    forall i, j :: 0 <= i < j < |s| ==> s[i].episodeId <= s[j].episodeId
  }

  /** The films of `s` with episode id `k`, in their order in `s`. */
  function WithEpisode(s: seq<Entity>, k: int): (r: seq<Entity>)
    requires AllFilms(s)
    ensures |r| <= |s|
  {
    if s == [] then []
    else (if s[0].episodeId == k then [s[0]] else []) + WithEpisode(s[1..], k)
  }

  /** Place `x` after every entry whose episode id is not greater than its own. */
  function Insert(s: seq<Entity>, x: Entity): (r: seq<Entity>)
    requires AllFilms(s) && x.Film?
    ensures AllFilms(r) && |r| == |s| + 1
    ensures multiset(r) == multiset(s) + multiset{x}
    ensures forall e :: e in r ==> e == x || e in s
  {
    if s == [] || x.episodeId < s[0].episodeId then [x] + s
    else
      assert s == [s[0]] + s[1..];
      [s[0]] + Insert(s[1..], x)
  }

  function SortByEpisode(s: seq<Entity>): (r: seq<Entity>)
    requires AllFilms(s)
    ensures AllFilms(r) && |r| == |s|
  {
    if s == [] then []
    else Insert(SortByEpisode(s[..|s| - 1]), s[|s| - 1])
  }

  /** The stored list is a permutation of the results. */
  lemma {:induction false} SortIsPermutation(s: seq<Entity>)
    requires AllFilms(s)
    ensures multiset(SortByEpisode(s)) == multiset(s)
  {
    if s != [] {
      var init, last := s[..|s| - 1], s[|s| - 1];
      assert s == init + [last];
      SortIsPermutation(init);
      assert multiset(SortByEpisode(s)) == multiset(SortByEpisode(init)) + multiset{last};
    }
  }

  lemma {:induction false} InsertSorted(s: seq<Entity>, x: Entity)
    requires AllFilms(s) && x.Film? && SortedByEpisode(s)
    ensures SortedByEpisode(Insert(s, x))
  {
    if s != [] && x.episodeId >= s[0].episodeId {
      InsertSorted(s[1..], x);
      var t := Insert(s[1..], x);
      forall j | 0 <= j < |t| ensures s[0].episodeId <= t[j].episodeId {
        assert t[j] in t;
        if t[j] != x {
          var m :| 0 <= m < |s[1..]| && s[1..][m] == t[j];
          assert s[m + 1] == t[j];
        }
      }
    }
  }

  /** The stored list is ascending by episode id. */
  lemma {:induction false} SortIsSorted(s: seq<Entity>)
    requires AllFilms(s)
    ensures SortedByEpisode(SortByEpisode(s))
  {
    if s != [] {
      SortIsSorted(s[..|s| - 1]);
      InsertSorted(SortByEpisode(s[..|s| - 1]), s[|s| - 1]);
    }
  }

  lemma {:induction false} WithEpisodeAppend(a: seq<Entity>, b: seq<Entity>, k: int)
    requires AllFilms(a) && AllFilms(b)
    ensures AllFilms(a + b)
    ensures WithEpisode(a + b, k) == WithEpisode(a, k) + WithEpisode(b, k)
  {
    assert AllFilms(a + b) by {
      forall i | 0 <= i < |a + b| ensures (a + b)[i].Film? {
        if i >= |a| { assert (a + b)[i] == b[i - |a|]; }
      }
    }
    if a == [] {
      assert a + b == b;
    } else {
      WithEpisodeAppend(a[1..], b, k);
      assert (a + b)[0] == a[0] && (a + b)[1..] == a[1..] + b;
    }
  }

  lemma {:induction false} WithEpisodeOfLarger(s: seq<Entity>, k: int)
    requires AllFilms(s) && forall i :: 0 <= i < |s| ==> s[i].episodeId > k
    ensures WithEpisode(s, k) == []
  {
    if s != [] { WithEpisodeOfLarger(s[1..], k); }
  }

  /** Inserting in front of larger episode ids adds `x` after the films
      with its id, of which there are none. */
  lemma InsertInFront(s: seq<Entity>, x: Entity, k: int)
    requires AllFilms(s) && x.Film? && SortedByEpisode(s)
    requires s == [] || x.episodeId < s[0].episodeId
    ensures WithEpisode(Insert(s, x), k) == WithEpisode(s, k) + (if x.episodeId == k then [x] else [])
  {
    var r := [x] + s;
    assert Insert(s, x) == r;
    assert r[0] == x && r[1..] == s;
    if x.episodeId == k {
      assert forall i :: 0 <= i < |s| ==> s[0].episodeId <= s[i].episodeId;
      WithEpisodeOfLarger(s, k);
    }
  }

  lemma SortedTail(s: seq<Entity>)
    requires AllFilms(s) && SortedByEpisode(s) && s != []
    ensures AllFilms(s[1..]) && SortedByEpisode(s[1..])
  {
    forall i, j | 0 <= i < j < |s[1..]| ensures s[1..][i].episodeId <= s[1..][j].episodeId {
      assert s[1..][i] == s[i + 1] && s[1..][j] == s[j + 1];
    }
  }

  lemma {:induction false} InsertStable(s: seq<Entity>, x: Entity, k: int)
    requires AllFilms(s) && x.Film? && SortedByEpisode(s)
    ensures WithEpisode(Insert(s, x), k) == WithEpisode(s, k) + (if x.episodeId == k then [x] else [])
  {
    if s == [] || x.episodeId < s[0].episodeId {
      InsertInFront(s, x, k);
    } else {
      SortedTail(s);
      InsertStable(s[1..], x, k);
      InsertBehindHead(s, x, k);
    }
  }

  /** The step of `InsertStable` when `x` goes behind the head of `s`. */
  lemma InsertBehindHead(s: seq<Entity>, x: Entity, k: int)
    requires AllFilms(s) && x.Film? && s != [] && s[0].episodeId <= x.episodeId
    requires AllFilms(s[1..])
    requires WithEpisode(Insert(s[1..], x), k) == WithEpisode(s[1..], k) + (if x.episodeId == k then [x] else [])
    ensures WithEpisode(Insert(s, x), k) == WithEpisode(s, k) + (if x.episodeId == k then [x] else [])
  {
    var rest := Insert(s[1..], x);
    assert Insert(s, x) == [s[0]] + rest;
    assert s == [s[0]] + s[1..];
    WithEpisodeCons(s[0], rest, k);
    WithEpisodeCons(s[0], s[1..], k);
    var head := if s[0].episodeId == k then [s[0]] else [];
    var tail := if x.episodeId == k then [x] else [];
    var a := WithEpisode(s[1..], k);
    assert head + (a + tail) == (head + a) + tail;
  }

  lemma WithEpisodeCons(h: Entity, t: seq<Entity>, k: int)
    requires h.Film? && AllFilms(t)
    ensures AllFilms([h] + t)
    ensures WithEpisode([h] + t, k) == (if h.episodeId == k then [h] else []) + WithEpisode(t, k)
  {
    var s := [h] + t;
    assert s[0] == h && s[1..] == t;
    assert forall i :: 0 <= i < |t| ==> t[i] == s[i + 1];
  }

  /** Stability: for every episode id, the films carrying it appear in the
      stored list in the order the response listed them, as a stable sort
      promises. */
  lemma {:induction false} SortIsStable(s: seq<Entity>, k: int)
    requires AllFilms(s)
    ensures WithEpisode(SortByEpisode(s), k) == WithEpisode(s, k)
  {
    if s != [] {
      var init, last := s[..|s| - 1], s[|s| - 1];
      assert s == init + [last];
      var sorted := SortByEpisode(init);
      var tail := if last.episodeId == k then [last] else [];
      assert SortByEpisode(s) == Insert(sorted, last);
      SortIsSorted(init);
      InsertStable(sorted, last, k);
      assert WithEpisode(SortByEpisode(s), k) == WithEpisode(sorted, k) + tail;
      SortIsStable(init, k);
      assert [last][1..] == [];
      assert WithEpisode([last], k) == tail;
      WithEpisodeAppend(init, [last], k);
    }
  }
}
