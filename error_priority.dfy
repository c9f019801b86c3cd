/** The detail pages' combined error: `a ?? b ?? ... ?? null` over the error
    signals of the stores they use, in a fixed order. */
module ErrorPriority {
  import opened Entities

  /** The first error present, or none. */
  function FirstError(errors: seq<Option<string>>): (r: Option<string>)
    ensures r.None? <==> forall i :: 0 <= i < |errors| ==> errors[i].None?
    ensures forall i :: 0 <= i < |errors| && errors[i].Some? && (forall j :: 0 <= j < i ==> errors[j].None?) ==>
      r == errors[i]
  {
    if errors == [] then None
    else if errors[0].Some? then errors[0]
    else
      assert forall i :: 1 <= i < |errors| ==> errors[i] == errors[1..][i - 1];
      FirstError(errors[1..])
  }
}
