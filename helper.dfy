/** The shared helper service: endpoint construction and the user-facing text
    for a failed HTTP call; plus the canonical detail url every store builds. */
module Helper {
  import opened Entities
  import Decimal

  const NetworkErrorText := "Network error! Are you online?"
  const ServerErrorText := "Server error. Please try again later."
  const UnknownErrorText := "Unknown error"

  /** `${apiUri}/${path}`: the api root, one '/', then the path. */
  function TsmsUrl(apiUri: string, path: string): (r: string)
    ensures |r| == |apiUri| + 1 + |path|
    ensures r[..|apiUri|] == apiUri && r[|apiUri|] == '/' && r[|apiUri| + 1..] == path
  {
    apiUri + "/" + path
  }

  /** Status 0 (no response), then any status of 500 or more, then every other
      status with the backend's message or "Unknown error". */
  function FormatError(err: HttpError): (msg: string)
    ensures err.status == 0 ==> msg == NetworkErrorText
    ensures err.status != 0 && err.status >= 500 ==> msg == ServerErrorText
    ensures err.status != 0 && err.status < 500 ==>
      msg == "Error " + Decimal.IntToString(err.status) + ": "
             + (match err.message case Some(m) => m case None => UnknownErrorText)
  {
    if err.status == 0 then NetworkErrorText
    else if err.status >= 500 then ServerErrorText
    else
      var detail := match err.message case Some(m) => m case None => UnknownErrorText;
      "Error " + Decimal.IntToString(err.status) + ": " + detail
  }

  /** The three classes of message never overlap, so the message tells which
      branch was taken: each branch holds exactly for its class of status. */
  lemma FormatErrorClassifies(err: HttpError)
    ensures FormatError(err) == NetworkErrorText <==> err.status == 0
    ensures FormatError(err) == ServerErrorText <==> err.status != 0 && err.status >= 500
    ensures FormatError(err)[..6] == "Error " <==> err.status != 0 && err.status < 500
  {
    var msg := FormatError(err);
    assert NetworkErrorText[0] == 'N' && ServerErrorText[0] == 'S';
    if err.status != 0 && err.status < 500 {
      assert msg[0] == 'E';
    }
  }

  /** The status of a client error can be read back from its message: the text
      between "Error " and the first ':' is the status in decimal. */
  lemma FormatErrorKeepsStatus(err: HttpError)
    requires err.status != 0 && err.status < 500
    ensures var msg := FormatError(err);
      var digits := Decimal.IntToString(err.status);
      msg[6..6 + |digits|] == digits && msg[6 + |digits|] == ':'
      && (if digits[0] == '-' then Decimal.AllDigits(digits[1..]) else Decimal.AllDigits(digits))
      && Decimal.ParseInt(digits) == err.status
  {
    Decimal.IntRoundTrip(err.status);
  }

  /** `base.endsWith('/') ? base : base + '/'` */
  function NormalizeBase(base: string): (r: string)
    ensures |r| >= 1 && r[|r| - 1] == '/'
  {
    if |base| > 0 && base[|base| - 1] == '/' then base else base + "/"
  }

  /** The canonical detail url `${base}${id}/` each store looks up and fetches:
      it starts with the base and ends with the id between two '/'. */
  function DetailUrl(base: string, id: string): (r: string)
    ensures |r| >= |base| + |id| + 1 && |r| >= |id| + 2 && r[..|base|] == base
    ensures r[|r| - 1] == '/' && r[|r| - |id| - 2] == '/' && r[|r| - |id| - 1..|r| - 1] == id
  {
    NormalizeBase(base) + id + "/"
  }

  /** One separator is added only when the base lacks it; then the id, then '/'. */
  lemma DetailUrlShape(base: string, id: string)
    ensures |base| > 0 && base[|base| - 1] == '/' ==> DetailUrl(base, id) == base + id + "/"
    ensures !(|base| > 0 && base[|base| - 1] == '/') ==> DetailUrl(base, id) == base + "/" + id + "/"
    ensures !(|base| > 0 && base[|base| - 1] == '/') ==> DetailUrl(base + "/", id) == DetailUrl(base, id)
  {
    assert (base + "/")[|base|] == '/';
  }

  /** For a store's endpoint `apiUri/path` (path without trailing '/'), the
      detail url of `id` is `apiUri/path/id/`. */
  lemma DetailUrlOfEndpoint(apiUri: string, path: string, id: string)
    requires path != [] && path[|path| - 1] != '/'
    ensures DetailUrl(TsmsUrl(apiUri, path), id) == apiUri + "/" + path + "/" + id + "/"
  {
    var t := TsmsUrl(apiUri, path);
    assert t[|t| - 1] == path[|path| - 1];
  }
}
