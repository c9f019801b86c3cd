/** The planet store: no list or detail endpoint of its own, only batch
    resolution into `planets` (sharing the cache `cachedPlanets`), a url index
    over the list, the name lookup the detail pages display, and the
    single-url `ensurePlanet`. */
module PlanetStore {
  import opened Entities
  import opened UrlLists
  import Merge
  import Dedupe
  import Helper
  import Scheduler

  const NoPlanetText := "-"
  const PendingPlanetText := "Loading..."

  class PlanetService {
    var cachedPlanets: seq<Entity>
    var planets: seq<Entity>
    var loading: bool
    var error: Option<string>
    /** Batch resolutions still running, by the handle their start returned. */
    var batches: map<nat, Scheduler.Batch>
    var nextBatch: nat
    /** Every GET this store has issued, in order. */
    ghost var requests: seq<Url>

    ghost predicate Valid()
      reads this
    {
      && UniqueUrls(cachedPlanets)
      && forall id :: id in batches ==> id < nextBatch && Scheduler.Valid(batches[id])
    }

    constructor ()
      ensures Valid()
      ensures cachedPlanets == [] && planets == [] && !loading && error == None
      ensures batches == map[] && requests == []
    {
      cachedPlanets, planets := [], [];
      loading, error := false, None;
      batches, nextBatch := map[], 0;
      requests := [];
    }

    /** `planetIndex`: one `map.set(p.url, p)` per list entry, in list order,
        so a later entry overwrites an earlier one with the same url. */
    method PlanetIndex() returns (index: map<Url, Entity>)
      ensures index == IndexByUrl(planets)
    {
      index := map[];
      for i := 0 to |planets|
        invariant index == IndexByUrl(planets[..i])
      {
        assert planets[..i + 1][..i] == planets[..i];
        index := index[planets[i].url := planets[i]];
      }
      assert planets[..|planets|] == planets;
    }

    /** `getPlanetName(url)`: a placeholder for a missing url, the name the
        index holds for it, or a loading placeholder while it is not listed. */
    function GetPlanetName(u: Option<Url>): (name: string)
      reads this
      ensures u.None? || u == Some("") ==> name == NoPlanetText
      ensures u.Some? && u.value != "" && !HasUrl(planets, u.value) ==> name == PendingPlanetText
      ensures u.Some? && u.value != "" && HasUrl(planets, u.value) ==>
        name == match NameOf(planets[LastIndex(planets, u.value)])
                case Some(n) => n
                case None => PendingPlanetText
    {
      if u.None? || u.value == "" then NoPlanetText
      else
        var index := IndexByUrl(planets);
        IndexByUrlLastWins(planets, u.value);
        if u.value !in index then PendingPlanetText
        else match NameOf(index[u.value])
             case Some(n) => n
             case None => PendingPlanetText
    }

    /** What `getAllPlanetsSeparated(urls, concurrency)` does synchronously:
        clear the error; the distinct urls absent from the cache are queued;
        if none, nothing else happens; otherwise `loading` is set and the first
        window requested. */
    twostate predicate SeparatedStarted(urls: seq<Url>, concurrency: nat, new handle: Option<nat>)
      reads this
    {
      var queue := Dedupe.NotLoaded(urls, old(cachedPlanets));
      && error == None
      && cachedPlanets == old(cachedPlanets) && planets == old(planets)
      && if queue == [] then
           && handle == None && loading == old(loading) && batches == old(batches)
           && nextBatch == old(nextBatch) && requests == old(requests)
         else
           && handle == Some(old(nextBatch)) && loading && nextBatch == old(nextBatch) + 1
           && batches == old(batches)[old(nextBatch) := Scheduler.Start(queue, concurrency)]
           && requests == old(requests) + Scheduler.Start(queue, concurrency).inFlight
    }

    /** `getAllPlanetsSeparated(urls, concurrency)`; the returned handle names
        the batch for `CompleteSeparatedRequest`. */
    method GetAllPlanetsSeparated(urls: seq<Url>, concurrency: nat) returns (handle: Option<nat>)
      requires Valid()
      modifies this
      ensures Valid()
      ensures SeparatedStarted(urls, concurrency, handle)
    {
      error := None;
      var queue := Dedupe.NotLoaded(urls, cachedPlanets);
      if queue == [] {
        return None;
      }
      loading := true;
      Scheduler.StartSpec(queue, concurrency);
      var b := Scheduler.Start(queue, concurrency);
      batches := batches[nextBatch := b];
      handle := Some(nextBatch);
      nextBatch := nextBatch + 1;
      requests := requests + b.inFlight;
    }

    /** What `ensurePlanet(url)` does: nothing at all for a missing or empty
        url or one already cached (the error is not even cleared); otherwise a
        batch of that one url with a single slot, which requests it at once. */
    twostate predicate EnsureStarted(u: Option<Url>, new handle: Option<nat>)
      reads this
    {
      if u.None? || u == Some("") || HasUrl(old(cachedPlanets), u.value) then
        handle == None && unchanged(this)
      else
        && error == None && cachedPlanets == old(cachedPlanets) && planets == old(planets)
        && handle == Some(old(nextBatch)) && loading && nextBatch == old(nextBatch) + 1
        && batches == old(batches)[old(nextBatch) := Scheduler.Start([u.value], 1)]
        && requests == old(requests) + [u.value]
    }

    /** `ensurePlanet(url)` */
    method EnsurePlanet(u: Option<Url>) returns (handle: Option<nat>)
      requires Valid()
      modifies this
      ensures Valid()
      ensures EnsureStarted(u, handle)
    {
      if u.None? || u.value == "" {
        return None;
      }
      if !HasUrl(cachedPlanets, u.value) {
        Dedupe.NotLoadedSingle(u.value, cachedPlanets);
        handle := GetAllPlanetsSeparated([u.value], 1);
      } else {
        handle := None;
      }
    }

    /** One request `u` of batch `handle` finishes. A fetched planet replaces
        the FIRST list entry with its url, or is appended, and is pushed into
        the cache unless present; a failure only sets the error. The freed slot
        goes to the next queued url; a finished batch resets `loading`. */
    method CompleteSeparatedRequest(handle: nat, u: Url, outcome: FetchOutcome)
      requires Valid() && handle in batches && u in batches[handle].inFlight
      modifies this
      ensures Valid()
      ensures var b := old(batches[handle]);
        var next := Scheduler.Complete(b, u);
        && requests == old(requests) + Scheduler.Launched(b, next)
        && if Scheduler.Finished(next) then batches == old(batches) - {handle} && !loading
           else batches == old(batches)[handle := next] && loading == old(loading)
      ensures outcome.Fetched? ==>
        && planets == Merge.ReplaceFirstOrAppend(old(planets), outcome.entity)
        && cachedPlanets == PushIfAbsent(old(cachedPlanets), outcome.entity)
        && error == old(error)
      ensures outcome.Failed? ==>
        && planets == old(planets) && cachedPlanets == old(cachedPlanets)
        && error == Some(Helper.FormatError(outcome.error))
      ensures nextBatch == old(nextBatch)
    {
      match outcome {
        case Fetched(p) =>
          planets, cachedPlanets := Merge.ReplaceFirstOrAppend(planets, p), PushIfAbsent(cachedPlanets, p);
        case Failed(e) =>
          error := Some(Helper.FormatError(e));
      }
      AdvanceBatch(handle, u);
    }

    /** The bookkeeping part of a finished request: `u` leaves batch `handle`,
        the freed slot goes to the next queued url, and a batch with nothing
        left is dropped and resets `loading`. Nothing else changes. */
    method AdvanceBatch(handle: nat, u: Url)
      requires Valid() && handle in batches && u in batches[handle].inFlight
      modifies this
      ensures Valid()
      ensures var b := old(batches[handle]);
        var next := Scheduler.Complete(b, u);
        && requests == old(requests) + Scheduler.Launched(b, next)
        && if Scheduler.Finished(next) then batches == old(batches) - {handle} && !loading
           else batches == old(batches)[handle := next] && loading == old(loading)
      ensures planets == old(planets) && cachedPlanets == old(cachedPlanets) && error == old(error)
      ensures nextBatch == old(nextBatch)
    {
      var b := batches[handle];
      Scheduler.CompleteSpec(b, u);
      var next := Scheduler.Complete(b, u);
      requests := requests + Scheduler.Launched(b, next);
      if Scheduler.Finished(next) {
        batches := batches - {handle};
        loading := false;
      } else {
        batches := batches[handle := next];
      }
    }
  }
}
