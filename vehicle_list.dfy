/** The vehicle list page's two helpers: the numeric id at the end of a
    canonical url (`/\/(\d+)\/$/`, 0 when it does not match) and whether an
    image asset exists for that id. */
module VehicleListPage {
  import opened Entities
  import opened Decimal

  /** Vehicle ids that have an image asset. */
  const ImageIds: set<int> := {4, 6, 7, 8, 14, 16, 18, 19, 20, 24}

  /** The longest suffix of `s` made of digits only. */
  function DigitSuffix(s: string): (d: string)
    ensures |d| <= |s| && d == s[|s| - |d|..] && AllDigits(d)
    ensures |d| < |s| ==> !IsDigit(s[|s| - |d| - 1])
  {
    if s == [] || !IsDigit(s[|s| - 1]) then []
    else DigitSuffix(s[..|s| - 1]) + [s[|s| - 1]]
  }

  /** The group `/\/(\d+)\/$/` captures: the run of digits between a '/' and
      the final '/', when the url ends that way. */
  function TrailingDigits(u: string): (r: Option<string>)
    ensures r.Some? ==> var d := r.value;
      && d != [] && AllDigits(d) && |u| >= |d| + 2
      && u[|u| - 1] == '/' && u[|u| - |d| - 2] == '/' && u[|u| - |d| - 1..|u| - 1] == d
  {
    if |u| == 0 || u[|u| - 1] != '/' then None
    else
      var body := u[..|u| - 1];
      var d := DigitSuffix(body);
      if d != [] && |d| < |body| && body[|body| - |d| - 1] == '/' then Some(d) else None
  }

  lemma {:induction false} DigitSuffixAfterSlash(prefix: string, d: string)
    requires AllDigits(d)
    ensures DigitSuffix(prefix + "/" + d) == d
  {
    var s := prefix + "/" + d;
    if d == [] {
      assert s[|s| - 1] == '/';
    } else {
      var init := d[..|d| - 1];
      DigitSuffixAfterSlash(prefix, init);
      assert s[..|s| - 1] == prefix + "/" + init;
      assert s[|s| - 1] == d[|d| - 1];
      assert init + [d[|d| - 1]] == d;
    }
  }

  /** The regular expression matches exactly the urls `prefix/d/` with `d` a
      non-empty run of digits, and captures `d`. */
  lemma TrailingDigitsExactly(u: string, d: string)
    ensures TrailingDigits(u) == Some(d) <==>
      d != [] && AllDigits(d) && |u| >= |d| + 2 && u == u[..|u| - |d| - 2] + "/" + d + "/"
  {
    if TrailingDigits(u) == Some(d) {
      var body := u[..|u| - 1];
      assert body[|body| - |d|..] == d;
      assert u == u[..|u| - |d| - 2] + "/" + d + "/";
    }
    if d != [] && AllDigits(d) && |u| >= |d| + 2 && u == u[..|u| - |d| - 2] + "/" + d + "/" {
      var prefix := u[..|u| - |d| - 2];
      DigitSuffixAfterSlash(prefix, d);
      assert u[..|u| - 1] == prefix + "/" + d;
    }
  }

  /** The capture of a canonical url `prefix/d/` is `d`. */
  lemma TrailingDigitsOfCanonical(prefix: string, d: string)
    requires d != [] && AllDigits(d)
    ensures TrailingDigits(prefix + "/" + d + "/") == Some(d)
  {
    var u := prefix + "/" + d + "/";
    DigitSuffixAfterSlash(prefix, d);
    assert u[..|u| - 1] == prefix + "/" + d;
  }

  /** `idFromUrl(u)`: the decimal value of the captured digits, or 0 when the
      url does not end in a '/'-enclosed run of digits. */
  function IdFromUrl(u: string): (id: nat)
    ensures TrailingDigits(u).None? ==> id == 0
  {
    match TrailingDigits(u)
    case Some(d) => DecimalValue(d)
    case None => 0
  }

  /** `hasImage(u)`: the id is whitelisted. A url without a trailing numeric
      id reads as 0, which is not whitelisted, so it never has an image. */
  function HasImage(u: string): (r: bool)
    ensures r ==> TrailingDigits(u).Some?
  {
    IdFromUrl(u) in ImageIds
  }

  /** On a canonical url `prefix/n/` the id read back is `n`, so the image
      flag is exactly whitelist membership of `n`; ".../vehicles/14/" gives 14. */
  lemma IdOfCanonicalUrl(prefix: string, n: nat)
    ensures IdFromUrl(prefix + "/" + NatToString(n) + "/") == n
    ensures HasImage(prefix + "/" + NatToString(n) + "/") <==> n in ImageIds
  {
    NatRoundTrip(n);
    TrailingDigitsOfCanonical(prefix, NatToString(n));
  }
}
