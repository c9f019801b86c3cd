/** The vehicle details page: whether the route's id has an image asset, the
    selected vehicle and the vehicle store's error, the vehicle's film
    references resolved against the VEHICLE list, and the initial load that
    hands those film urls to the vehicle store's batch resolution. */
module VehicleDetailsPage {
  import opened Entities
  import opened Decimal
  import opened UrlLists
  import Joins
  import Dedupe
  import Helper
  import Scheduler
  import VehicleStore
  import VehicleListPage

  /** The concurrency the page asks for when resolving references. */
  const RelatedConcurrency: nat := 5

  /** `hasImage`: `Number(id)` is finite and a whitelisted id. Only a plain
      run of digits is read as a number here; `Number("")` is 0. */
  function RouteHasImage(id: string): (r: bool)
    ensures r ==> id != [] && AllDigits(id)
  {
    AllDigits(id) && DecimalValue(id) in VehicleListPage.ImageIds
  }

  /** The id of a canonical decimal route has an image exactly when that
      number is whitelisted. */
  lemma RouteOfNumber(n: nat)
    ensures RouteHasImage(NatToString(n)) <==> n in VehicleListPage.ImageIds
  {
    NatRoundTrip(n);
  }

  /** The detail page and the list page agree: the route id `d` has an image
      exactly when the list's card for the url `prefix/d/` shows one. */
  lemma RouteAgreesWithList(prefix: string, d: string)
    requires d != [] && AllDigits(d)
    ensures RouteHasImage(d) == VehicleListPage.HasImage(prefix + "/" + d + "/")
  {
    var u := prefix + "/" + d + "/";
    assert u[..|u| - |d| - 2] == prefix;
    VehicleListPage.TrailingDigitsExactly(u, d);
  }

  class VehicleDetails {
    const vehicleService: VehicleStore.VehicleService
    /** The vehicle id from the route. */
    const id: string

    ghost predicate Valid()
      reads this, vehicleService
    {
      vehicleService.Valid()
    }

    constructor (vehicleService: VehicleStore.VehicleService, id: string)
      ensures this.vehicleService == vehicleService && this.id == id
    {
      this.vehicleService, this.id := vehicleService, id;
    }

    /** `errorMsg`: the vehicle store's error as it is. */
    function ErrorMsg(): Option<string>
      reads this, vehicleService
    {
      vehicleService.error
    }

    /** `filmUrls`: the selected vehicle's films, none without a vehicle. */
    function FilmUrls(): seq<Url>
      reads this, vehicleService
    {
      match vehicleService.vehicle
      case Some(v) => FilmsOf(v)
      case None => []
    }

    /** `vehicleFilms`: the vehicle's film urls looked up in the vehicle list
        (not the film list), in reference order. */
    function VehicleFilms(): (r: seq<Entity>)
      reads this, vehicleService
      ensures Joins.IsJoin(r, FilmUrls(), vehicleService.vehicles)
      ensures vehicleService.vehicle.None? ==> r == []
    {
      Joins.ResolveSpec(FilmUrls(), vehicleService.vehicles);
      Joins.Resolve(FilmUrls(), vehicleService.vehicles)
    }

    /** The batch the page's `tap` leaves behind for a loaded vehicle `v`:
        its film urls not in `cachedVehicles` (none when it has no films) are
        queued in a new vehicle-store batch of concurrency 5, if any. The lists
        and caches the batch fills are untouched so far. */
    twostate predicate FilmsRequested(v: Entity, new handle: Option<nat>)
      reads this, vehicleService
    {
      var queue := Dedupe.NotLoaded(FilmsOf(v), old(vehicleService.cachedVehicles));
      && vehicleService.cachedVehicles == old(vehicleService.cachedVehicles)
      && vehicleService.vehicles == old(vehicleService.vehicles)
      && vehicleService.listLoaded == old(vehicleService.listLoaded)
      && vehicleService.openLists == old(vehicleService.openLists)
      && if queue == [] then
           && handle == None && vehicleService.batches == old(vehicleService.batches)
           && vehicleService.nextBatch == old(vehicleService.nextBatch)
           && vehicleService.requests == old(vehicleService.requests)
         else
           && handle == Some(old(vehicleService.nextBatch))
           && vehicleService.nextBatch == old(vehicleService.nextBatch) + 1
           && vehicleService.batches ==
                old(vehicleService.batches)[old(vehicleService.nextBatch) := Scheduler.Start(queue, RelatedConcurrency)]
           && vehicleService.requests ==
                old(vehicleService.requests) + Scheduler.Start(queue, RelatedConcurrency).inFlight
    }

    /** The page's `tap` on a loaded vehicle: a non-empty film array goes to
        the vehicle store's batch resolution with concurrency 5. */
    method OnVehicleLoaded(v: Entity) returns (handle: Option<nat>)
      requires Valid()
      modifies vehicleService
      ensures Valid()
      ensures FilmsOf(v) != [] ==>
        && vehicleService.SeparatedStarted(FilmsOf(v), RelatedConcurrency, handle)
        && vehicleService.vehicle == old(vehicleService.vehicle)
      ensures FilmsOf(v) == [] ==> handle == None && unchanged(vehicleService)
    {
      handle := None;
      if FilmsOf(v) != [] {
        handle := vehicleService.GetAllVehiclesSeparated(FilmsOf(v), RelatedConcurrency);
      }
    }

    /** `ngOnInit()`, synchronous part. A cached vehicle is selected and
        reaches the `tap` at once, so its film batch is started now and
        `loading` reports it; a vehicle that must be fetched is requested and
        starts nothing yet (see `OnVehicleArrived`). */
    method OnInit() returns (reply: DetailReply, handle: Option<nat>)
      requires Valid()
      modifies vehicleService
      ensures Valid()
      ensures match FindByUrl(old(vehicleService.cachedVehicle), Helper.DetailUrl(vehicleService.url, id))
        case None => vehicleService.DetailStarted(id, reply) && handle == None
        case Some(hit) =>
          && reply == Hit(hit) && vehicleService.vehicle == Some(hit) && vehicleService.error == None
          && vehicleService.cachedVehicle == old(vehicleService.cachedVehicle)
          && vehicleService.openDetails == old(vehicleService.openDetails)
          && FilmsRequested(hit, handle)
          && vehicleService.loading == (old(vehicleService.loading) || handle.Some?)
    {
      reply := vehicleService.GetVehicle(id);
      handle := None;
      if reply.Hit? {
        handle := OnVehicleLoaded(reply.entity);
      }
    }

    /** The vehicle response for `requested` arrives: the store applies it,
        then a fetched vehicle reaches the page's `tap`, and only then does
        the request's `finalize` clear `loading`, so the flag ends false even
        while the film batch the `tap` started is still running. A failure
        reaches the `tap` as null, whose dereference throws: no batch. */
    method OnVehicleArrived(requested: Url, outcome: FetchOutcome)
      returns (emitted: Option<Entity>, handle: Option<nat>)
      requires Valid() && requested in vehicleService.openDetails
      modifies vehicleService
      ensures Valid()
      ensures !vehicleService.loading
      ensures vehicleService.openDetails + multiset{requested} == old(vehicleService.openDetails)
      ensures outcome.Fetched? ==>
        && emitted == Some(outcome.entity) && vehicleService.vehicle == Some(outcome.entity)
        && vehicleService.cachedVehicle == PushIfAbsent(old(vehicleService.cachedVehicle), outcome.entity)
        && vehicleService.error == (if FilmsOf(outcome.entity) != [] then None else old(vehicleService.error))
        && FilmsRequested(outcome.entity, handle)
      ensures outcome.Failed? ==>
        && emitted == None && handle == None
        && vehicleService.vehicle == old(vehicleService.vehicle)
        && vehicleService.cachedVehicle == old(vehicleService.cachedVehicle)
        && vehicleService.error == Some(Helper.FormatError(outcome.error))
        && vehicleService.batches == old(vehicleService.batches)
        && vehicleService.requests == old(vehicleService.requests)
      ensures handle.Some? ==> handle.value in vehicleService.batches
    {
      emitted := vehicleService.CompleteGetVehicle(requested, outcome);
      handle := None;
      if outcome.Fetched? {
        handle := OnVehicleLoaded(outcome.entity);
      }
      vehicleService.loading := false;
    }
  }
}
