/** The shared card component: on every input change it splits its `url` at
    '/', takes the second-to-last segment as the resource id, and picks the
    route the card links to from its variant flags, film first. */
module CardView {
  import opened Entities

  /** `s.split('/')`: the pieces between separators, empty ones included.
      Defined from the right: a final '/' starts a new empty piece, any other
      final character ends the last piece. */
  function Split(s: string): (parts: seq<string>)
    ensures |parts| >= 1
  {
    if s == [] then [""]
    else
      var init := Split(s[..|s| - 1]);
      var c := s[|s| - 1];
      if c == '/' then init + [""]
      else init[..|init| - 1] + [init[|init| - 1] + [c]]
  }

  /** `parts.join('/')` */
  function Join(parts: seq<string>): string
    requires |parts| >= 1
  {
    if |parts| == 1 then parts[0] else Join(parts[..|parts| - 1]) + "/" + parts[|parts| - 1]
  }

  /** `Split` on a string with a known last character. */
  lemma SplitSnoc(s: string, c: char)
    ensures Split(s + [c]) ==
      if c == '/' then Split(s) + [""]
      else Split(s)[..|Split(s)| - 1] + [Split(s)[|Split(s)| - 1] + [c]]
  {
    assert (s + [c])[..|s|] == s;
  }

  lemma JoinLast(parts: seq<string>, y: string)
    requires |parts| >= 1
    ensures Join(parts[..|parts| - 1] + [y]) ==
      (if |parts| == 1 then y else Join(parts[..|parts| - 1]) + "/" + y)
  {
    var q := parts[..|parts| - 1] + [y];
    assert q[..|q| - 1] == parts[..|parts| - 1];
  }

  /** Extending the last piece by `c` extends the joined string by `c`. */
  lemma JoinExtendLast(init: seq<string>, c: char)
    requires |init| >= 1
    ensures Join(init[..|init| - 1] + [init[|init| - 1] + [c]]) == Join(init) + [c]
  {
    var y := init[|init| - 1];
    JoinLast(init, y + [c]);
    if |init| > 1 {
      var j := Join(init[..|init| - 1]);
      assert Join(init) == j + "/" + y;
      assert j + "/" + (y + [c]) == (j + "/" + y) + [c];
    }
  }

  /** Splitting loses nothing: joining the pieces gives the url back. */
  lemma {:induction false} JoinSplit(s: string)
    ensures Join(Split(s)) == s
  {
    if s != [] {
      var n := |s|;
      var pre, c := s[..n - 1], s[n - 1];
      assert s == pre + [c];
      JoinSplit(pre);
      var init := Split(pre);
      if c == '/' {
        assert (init + [""])[..|init|] == init;
      } else {
        JoinExtendLast(init, c);
      }
    }
  }

  /** The text after the last separator is the last piece, and the pieces
      before it are those of the text before it. */
  lemma {:induction false} SplitLastPiece(p: string, id: string)
    requires '/' !in id
    ensures Split(p + "/" + id) == Split(p) + [id]
  {
    if id == [] {
      assert p + "/" + id == p + ['/'];
      SplitSnoc(p, '/');
    } else {
      var n := |id|;
      var pre, c := id[..n - 1], id[n - 1];
      assert id == pre + [c];
      assert c != '/';
      assert '/' !in pre;
      SplitLastPiece(p, pre);
      assert p + "/" + id == (p + "/" + pre) + [c];
      SplitSnoc(p + "/" + pre, c);
      var init := Split(p) + [pre];
      assert init[..|init| - 1] == Split(p) && init[|init| - 1] == pre;
    }
  }

  lemma {:induction false} SplitWithoutSeparator(s: string)
    requires '/' !in s
    ensures Split(s) == [s]
  {
    if s != [] {
      var n := |s|;
      var pre, c := s[..n - 1], s[n - 1];
      assert s == pre + [c];
      assert c != '/';
      assert '/' !in pre;
      SplitWithoutSeparator(pre);
      SplitSnoc(pre, c);
    }
  }

  /** `parts[parts.length - 2]`, undefined when there are fewer than two.
      The contract is the lookup's case table; what the index means for a
      resource url is stated by `CardOfResourceUrl`. */
  function SecondToLast(parts: seq<string>): (r: Option<string>)
    ensures r.Some? <==> |parts| >= 2
    ensures r.Some? ==> r.value == parts[|parts| - 2]
  {
    if |parts| >= 2 then Some(parts[|parts| - 2]) else None
  }

  /** String concatenation with an undefined id yields "undefined". */
  function IdText(index: Option<string>): string
  {
    match index
    case Some(s) => s
    case None => "undefined"
  }

  /** The `switch (true)` over the flags: the first flag set wins. The
      contract is the priority table itself; `CardOfResourceUrl` states the
      links a resource url gets. */
  function RouteFor(isFilm: bool, isPeople: bool, isVehicles: bool, index: Option<string>): (link: string)
    ensures isFilm ==> link == "/films/" + IdText(index)
    ensures !isFilm && isPeople ==> link == "/people/" + IdText(index)
    ensures !isFilm && !isPeople && isVehicles ==> link == "/vehicles/" + IdText(index)
    ensures !isFilm && !isPeople && !isVehicles ==> link == "/"
  {
    if isFilm then "/films/" + IdText(index)
    else if isPeople then "/people/" + IdText(index)
    else if isVehicles then "/vehicles/" + IdText(index)
    else "/"
  }

  class Card {
    var isFilm: bool
    var isPeople: bool
    var isVehicles: bool
    var url: string
    var urlSplitted: seq<string>
    var index: Option<string>
    var urlRouterLink: string

    /** The inputs as bound; the derived fields keep their initial values
        until the first change notification. */
    constructor (url: string, isFilm: bool, isPeople: bool, isVehicles: bool)
      ensures this.url == url && this.isFilm == isFilm
      ensures this.isPeople == isPeople && this.isVehicles == isVehicles
      ensures urlSplitted == [] && index == Some("") && urlRouterLink == ""
    {
      this.url, this.isFilm, this.isPeople, this.isVehicles := url, isFilm, isPeople, isVehicles;
      urlSplitted, index, urlRouterLink := [], Some(""), "";
    }

    /** `ngOnChanges()`: recompute the three derived fields from the inputs. */
    method OnChanges()
      modifies this
      ensures urlSplitted == Split(url) && Join(urlSplitted) == url
      ensures index == SecondToLast(urlSplitted)
      ensures urlRouterLink == RouteFor(isFilm, isPeople, isVehicles, index)
      ensures url == old(url) && isFilm == old(isFilm)
      ensures isPeople == old(isPeople) && isVehicles == old(isVehicles)
    {
      JoinSplit(url);
      urlSplitted := Split(url);
      index := SecondToLast(urlSplitted);
      urlRouterLink := RouteFor(isFilm, isPeople, isVehicles, index);
    }
  }

  /** For a canonical resource url `prefix/id/` (an id without '/'), the card's
      id is `id` and a film card links to `/films/id`, e.g. ".../films/2/"
      gives "2" and "/films/2". */
  lemma CardOfResourceUrl(prefix: string, id: string)
    requires '/' !in id
    ensures var parts := Split(prefix + "/" + id + "/");
      && SecondToLast(parts) == Some(id)
      && RouteFor(true, false, false, SecondToLast(parts)) == "/films/" + id
      && RouteFor(false, true, false, SecondToLast(parts)) == "/people/" + id
      && RouteFor(false, false, true, SecondToLast(parts)) == "/vehicles/" + id
  {
    SplitLastPiece(prefix, id);
    assert prefix + "/" + id + "/" == (prefix + "/" + id) + ['/'];
    SplitSnoc(prefix + "/" + id, '/');
  }

  /** A url with no '/' has no second-to-last piece. */
  lemma CardOfBareUrl(s: string)
    requires '/' !in s
    ensures SecondToLast(Split(s)) == None
    ensures RouteFor(true, false, false, SecondToLast(Split(s))) == "/films/undefined"
  {
    SplitWithoutSeparator(s);
  }
}
