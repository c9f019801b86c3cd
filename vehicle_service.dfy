/** The vehicle store. Each asynchronous operation is split in two: the method
    named after the source operation runs its synchronous part (serve from a
    cache, or issue the GET), and a `Complete…` method applies one HTTP outcome
    chosen by the environment, as the `tap`/`catchError`/`finalize` operators of
    the source do. Unlike the other stores it keeps TWO caches: `cachedVehicle`
    for detail lookups and `cachedVehicles` for batch resolution. */
module VehicleStore {
  import opened Entities
  import opened UrlLists
  import Merge
  import Dedupe
  import Helper
  import Scheduler

  class VehicleService {
    /** The list endpoint, `apiUri/vehicles`. */
    const url: Url
    var cachedVehicle: seq<Entity>
    var cachedVehicles: seq<Entity>
    var vehicles: seq<Entity>
    var vehicle: Option<Entity>
    var loading: bool
    var listLoaded: bool
    var error: Option<string>
    /** Batch resolutions still running, by the handle their start returned. */
    var batches: map<nat, Scheduler.Batch>
    var nextBatch: nat
    /** Every GET this store has issued, in order. */
    ghost var requests: seq<Url>
    /** Detail GETs issued and not yet answered. */
    ghost var openDetails: multiset<Url>
    /** List GETs issued and not yet answered. */
    ghost var openLists: nat

    ghost predicate Valid()
      reads this
    {
      && UniqueUrls(cachedVehicle)
      && UniqueUrls(cachedVehicles)
      && forall id :: id in batches ==> id < nextBatch && Scheduler.Valid(batches[id])
    }

    constructor (apiUri: string)
      ensures Valid()
      ensures url == Helper.TsmsUrl(apiUri, "vehicles")
      ensures cachedVehicle == [] && cachedVehicles == [] && vehicles == [] && vehicle == None
      ensures !loading && !listLoaded && error == None
      ensures batches == map[] && requests == [] && openDetails == multiset{} && openLists == 0
    {
      url := Helper.TsmsUrl(apiUri, "vehicles");
      cachedVehicle, cachedVehicles, vehicles, vehicle := [], [], [], None;
      loading, listLoaded, error := false, false, None;
      batches, nextBatch := map[], 0;
      requests, openDetails, openLists := [], multiset{}, 0;
    }

    /** `getAllVehicles()`, synchronous part: a non-empty list that was loaded
        once is served as a copy with no request; otherwise the list is cleared
        and the list endpoint requested. */
    method GetAllVehicles() returns (reply: ListReply)
      requires Valid()
      modifies this
      ensures Valid()
      ensures error == None
      ensures old(|vehicles| > 0 && listLoaded) ==>
        && reply == Served(old(vehicles)) && vehicles == old(vehicles)
        && loading == old(loading) && requests == old(requests) && openLists == old(openLists)
      ensures !old(|vehicles| > 0 && listLoaded) ==>
        && reply == ListRequested(url) && vehicles == []
        && loading && requests == old(requests) + [url] && openLists == old(openLists) + 1
      ensures cachedVehicle == old(cachedVehicle) && cachedVehicles == old(cachedVehicles)
      ensures vehicle == old(vehicle) && listLoaded == old(listLoaded)
      ensures batches == old(batches) && nextBatch == old(nextBatch) && openDetails == old(openDetails)
    {
      error := None;
      if |vehicles| > 0 && listLoaded {
        return Served(vehicles);
      }
      loading := true;
      vehicles := [];
      requests := requests + [url];
      openLists := openLists + 1;
      reply := ListRequested(url);
    }

    /** The list response arrives. On success the list becomes the results in
        the order `sort((a, b) => a.url - b.url)` leaves them (`engineOrder`,
        some permutation) and is marked loaded; on failure the error is set and
        nothing is emitted. Either way `loading` ends false. */
    method CompleteGetAllVehicles(outcome: ListOutcome, engineOrder: seq<Entity>)
      returns (emitted: Option<seq<Entity>>)
      requires Valid() && openLists > 0
      requires outcome.Listed? ==> multiset(engineOrder) == multiset(outcome.results)
      modifies this
      ensures Valid()
      ensures !loading && openLists == old(openLists) - 1
      ensures outcome.Listed? ==>
        && vehicles == engineOrder && multiset(vehicles) == multiset(outcome.results)
        && listLoaded && emitted == Some(vehicles) && error == old(error)
      ensures outcome.ListFailed? ==>
        && vehicles == old(vehicles) && listLoaded == old(listLoaded) && emitted == None
        && error == Some(Helper.FormatError(outcome.error))
      ensures cachedVehicle == old(cachedVehicle) && cachedVehicles == old(cachedVehicles)
      ensures vehicle == old(vehicle) && batches == old(batches) && nextBatch == old(nextBatch)
      ensures requests == old(requests) && openDetails == old(openDetails)
    {
      match outcome {
        case Listed(_) =>
          vehicles := engineOrder;
          listLoaded := true;
          emitted := Some(engineOrder);
        case ListFailed(e) =>
          error := Some(Helper.FormatError(e));
          emitted := None;
      }
      loading := false;
      openLists := openLists - 1;
    }

    /** What `getVehicle(id)` does synchronously: clear the error and look the
        canonical url up in the detail cache; a hit is selected and returned
        with no request and no change to `loading`; a miss clears the selection,
        sets `loading` and requests the url. Nothing else changes. */
    twostate predicate DetailStarted(id: string, new reply: DetailReply)
      reads this
    {
      var wanted := Helper.DetailUrl(url, id);
      && error == None
      && cachedVehicle == old(cachedVehicle) && cachedVehicles == old(cachedVehicles)
      && vehicles == old(vehicles) && listLoaded == old(listLoaded)
      && batches == old(batches) && nextBatch == old(nextBatch) && openLists == old(openLists)
      && match FindByUrl(old(cachedVehicle), wanted)
         case Some(hit) =>
           && reply == Hit(hit) && vehicle == Some(hit) && loading == old(loading)
           && requests == old(requests) && openDetails == old(openDetails)
         case None =>
           && reply == DetailRequested(wanted) && vehicle == None && loading
           && requests == old(requests) + [wanted] && openDetails == old(openDetails) + multiset{wanted}
    }

    /** `getVehicle(id)`, synchronous part. */
    method GetVehicle(id: string) returns (reply: DetailReply)
      requires Valid()
      modifies this
      ensures Valid()
      ensures DetailStarted(id, reply)
    {
      error := None;
      var wanted := Helper.DetailUrl(url, id);
      var hit := FindByUrl(cachedVehicle, wanted);
      if hit.Some? {
        vehicle := hit;
        return Hit(hit.value);
      }
      loading := true;
      vehicle := None;
      requests := requests + [wanted];
      openDetails := openDetails + multiset{wanted};
      reply := DetailRequested(wanted);
    }

    /** What the arrival of the detail response for `requested` does. A vehicle is selected,
        emitted and added to the detail cache unless its url is already there
        (keyed by the RETURNED url); a failure emits null and sets the error. */
    twostate predicate DetailCompleted(requested: Url, outcome: FetchOutcome, new emitted: Option<Entity>)
      reads this
    {
      && !loading && openDetails + multiset{requested} == old(openDetails)
      && (outcome.Fetched? ==>
          && emitted == Some(outcome.entity) && vehicle == Some(outcome.entity)
          && cachedVehicle == PushIfAbsent(old(cachedVehicle), outcome.entity)
          && error == old(error))
      && (outcome.Failed? ==>
          && emitted == None && vehicle == old(vehicle) && cachedVehicle == old(cachedVehicle)
          && error == Some(Helper.FormatError(outcome.error)))
      && cachedVehicles == old(cachedVehicles) && vehicles == old(vehicles)
      && listLoaded == old(listLoaded) && batches == old(batches) && nextBatch == old(nextBatch)
      && requests == old(requests) && openLists == old(openLists)
    }

    /** The detail response for `requested` arrives. */
    method CompleteGetVehicle(requested: Url, outcome: FetchOutcome) returns (emitted: Option<Entity>)
      requires Valid() && requested in openDetails
      modifies this
      ensures Valid()
      ensures DetailCompleted(requested, outcome, emitted)
    {
      match outcome {
        case Fetched(v) =>
          var cache := PushIfAbsent(cachedVehicle, v);
          vehicle, cachedVehicle, emitted := Some(v), cache, Some(v);
        case Failed(e) =>
          error := Some(Helper.FormatError(e));
          emitted := None;
      }
      loading := false;
      openDetails := openDetails[requested := openDetails[requested] - 1];
    }

    /** What `getAllVehiclesSeparated(urls, concurrency)` does synchronously:
        clear the error; the distinct urls absent from `cachedVehicles` (the
        detail cache is NOT consulted) are queued; if none, nothing else
        happens; otherwise `loading` is set and the first window requested.
        The selected vehicle is not part of it (see `GetAllVehiclesSeparated`). */
    twostate predicate SeparatedStarted(urls: seq<Url>, concurrency: nat, new handle: Option<nat>)
      reads this
    {
      var queue := Dedupe.NotLoaded(urls, old(cachedVehicles));
      && error == None
      && cachedVehicle == old(cachedVehicle) && cachedVehicles == old(cachedVehicles)
      && vehicles == old(vehicles) && listLoaded == old(listLoaded)
      && openDetails == old(openDetails) && openLists == old(openLists)
      && if queue == [] then
           && handle == None && loading == old(loading) && batches == old(batches)
           && nextBatch == old(nextBatch) && requests == old(requests)
         else
           && handle == Some(old(nextBatch)) && loading && nextBatch == old(nextBatch) + 1
           && batches == old(batches)[old(nextBatch) := Scheduler.Start(queue, concurrency)]
           && requests == old(requests) + Scheduler.Start(queue, concurrency).inFlight
    }

    /** `getAllVehiclesSeparated(urls, concurrency)`; the returned handle names
        the batch for `CompleteSeparatedRequest`. */
    method GetAllVehiclesSeparated(urls: seq<Url>, concurrency: nat) returns (handle: Option<nat>)
      requires Valid()
      modifies this
      ensures Valid()
      ensures SeparatedStarted(urls, concurrency, handle) && vehicle == old(vehicle)
    {
      error := None;
      var queue := Dedupe.NotLoaded(urls, cachedVehicles);
      if queue == [] {
        return None;
      }
      loading := true;
      Scheduler.StartSpec(queue, concurrency);
      var b := Scheduler.Start(queue, concurrency);
      batches := batches[nextBatch := b];
      handle := Some(nextBatch);
      nextBatch := nextBatch + 1;
      requests := requests + b.inFlight;
    }

    /** One request `u` of batch `handle` finishes. A fetched entity is merged
        into the list (first slot with its url replaced, else appended) and
        pushed into `cachedVehicles` unless present; a failure only sets the
        error. Either way the freed slot goes to the next queued url, and when
        the batch has nothing left `loading` is reset. */
    method CompleteSeparatedRequest(handle: nat, u: Url, outcome: FetchOutcome)
      requires Valid() && handle in batches && u in batches[handle].inFlight
      modifies this
      ensures Valid()
      ensures var b := old(batches[handle]);
        var next := Scheduler.Complete(b, u);
        && requests == old(requests) + Scheduler.Launched(b, next)
        && if Scheduler.Finished(next) then batches == old(batches) - {handle} && !loading
           else batches == old(batches)[handle := next] && loading == old(loading)
      ensures outcome.Fetched? ==>
        && vehicles == Merge.ReplaceFirstOrAppend(old(vehicles), outcome.entity)
        && cachedVehicles == PushIfAbsent(old(cachedVehicles), outcome.entity)
        && error == old(error)
      ensures outcome.Failed? ==>
        && vehicles == old(vehicles) && cachedVehicles == old(cachedVehicles)
        && error == Some(Helper.FormatError(outcome.error))
      ensures cachedVehicle == old(cachedVehicle) && vehicle == old(vehicle)
      ensures listLoaded == old(listLoaded) && nextBatch == old(nextBatch)
      ensures openDetails == old(openDetails) && openLists == old(openLists)
    {
      match outcome {
        case Fetched(v) =>
          vehicles, cachedVehicles := Merge.ReplaceFirstOrAppend(vehicles, v), PushIfAbsent(cachedVehicles, v);
        case Failed(e) =>
          error := Some(Helper.FormatError(e));
      }
      AdvanceBatch(handle, u);
    }

    /** The bookkeeping part of a finished request: `u` leaves batch `handle`,
        the freed slot goes to the next queued url, and a batch with nothing
        left is dropped and resets `loading`. Nothing else changes. */
    method AdvanceBatch(handle: nat, u: Url)
      requires Valid() && handle in batches && u in batches[handle].inFlight
      modifies this
      ensures Valid()
      ensures var b := old(batches[handle]);
        var next := Scheduler.Complete(b, u);
        && requests == old(requests) + Scheduler.Launched(b, next)
        && if Scheduler.Finished(next) then batches == old(batches) - {handle} && !loading
           else batches == old(batches)[handle := next] && loading == old(loading)
      ensures vehicles == old(vehicles) && cachedVehicles == old(cachedVehicles) && error == old(error)
      ensures cachedVehicle == old(cachedVehicle) && vehicle == old(vehicle)
      ensures listLoaded == old(listLoaded) && nextBatch == old(nextBatch)
      ensures openDetails == old(openDetails) && openLists == old(openLists)
    {
      var b := batches[handle];
      Scheduler.CompleteSpec(b, u);
      var next := Scheduler.Complete(b, u);
      requests := requests + Scheduler.Launched(b, next);
      if Scheduler.Finished(next) {
        batches := batches - {handle};
        loading := false;
      } else {
        batches := batches[handle := next];
      }
    }
  }

  /** Two overlapping operations share one `loading` flag: a vehicle request
      can still be outstanding when a finishing batch resets it. */
  method SharedLoadingFlag(apiUri: string, u: Url, v: Entity) returns (s: VehicleService)
    ensures !s.loading && |s.openDetails| == 1
  {
    s := new VehicleService(apiUri);
    var reply := s.GetVehicle("1");
    assert [u][..0] == [];
    assert Dedupe.Distinct([u]) == [u];
    assert [u][1..] == [];
    assert Dedupe.WithoutCached([u], []) == [u];
    assert Dedupe.NotLoaded([u], []) == [u];
    var handle := s.GetAllVehiclesSeparated([u], 1);
    Scheduler.StartSpec([u], 1);
    s.CompleteSeparatedRequest(handle.value, u, Fetched(v));
  }
}
