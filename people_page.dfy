/** The person page: the selected person, the combined error of the four
    stores it uses, the person's films and vehicles resolved against the lists
    those stores hold, and the initial load that asks the film and vehicle
    stores to resolve the person's references in batches of five and the
    planet store to fetch the homeworld if it has not got it. */
module PeoplePage {
  import opened Entities
  import Joins
  import ErrorPriority
  import FilmStore
  import PeopleStore
  import PlanetStore
  import VehicleStore

  /** The concurrency the page asks for when resolving references. */
  const RelatedConcurrency: nat := 5

  class People {
    const peopleService: PeopleStore.PeopleService
    const filmService: FilmStore.FilmService
    const vehicleService: VehicleStore.VehicleService
    const planetService: PlanetStore.PlanetService
    /** The person id from the route. */
    const id: string

    ghost predicate Valid()
      reads this, peopleService, filmService, vehicleService, planetService
    {
      peopleService.Valid() && filmService.Valid() && vehicleService.Valid() && planetService.Valid()
    }

    constructor (peopleService: PeopleStore.PeopleService, filmService: FilmStore.FilmService,
                 vehicleService: VehicleStore.VehicleService, planetService: PlanetStore.PlanetService,
                 id: string)
      ensures this.peopleService == peopleService && this.filmService == filmService
      ensures this.vehicleService == vehicleService && this.planetService == planetService
      ensures this.id == id
    {
      this.peopleService, this.filmService := peopleService, filmService;
      this.vehicleService, this.planetService := vehicleService, planetService;
      this.id := id;
    }

    /** `errorMsg`: the people store's error wins, then the planet, film and
        vehicle stores' in that order; none when no store has one. */
    function ErrorMsg(): (r: Option<string>)
      reads this, peopleService, filmService, vehicleService, planetService
      ensures peopleService.error.Some? ==> r == peopleService.error
      ensures peopleService.error.None? && planetService.error.Some? ==> r == planetService.error
      ensures peopleService.error.None? && planetService.error.None? && filmService.error.Some? ==>
        r == filmService.error
      ensures peopleService.error.None? && planetService.error.None? && filmService.error.None? ==>
        r == vehicleService.error
    {
      var errors := [peopleService.error, planetService.error, filmService.error, vehicleService.error];
      assert errors[0] == peopleService.error && errors[1] == planetService.error;
      assert errors[2] == filmService.error && errors[3] == vehicleService.error;
      ErrorPriority.FirstError(errors)
    }

    /** `filmUrls`: the selected person's films, none without a person. */
    function FilmUrls(): seq<Url>
      reads this, peopleService
    {
      match peopleService.people
      case Some(p) => FilmsOf(p)
      case None => []
    }

    function VehicleUrls(): seq<Url>
      reads this, peopleService
    {
      match peopleService.people
      case Some(p) => VehiclesOf(p)
      case None => []
    }

    /** `peopleFilms`: the person's films found in the film list, in the
        person's order, each the last list entry with its url. */
    function PeopleFilms(): (r: seq<Entity>)
      reads this, peopleService, filmService
      ensures Joins.IsJoin(r, FilmUrls(), filmService.films)
      ensures peopleService.people.None? ==> r == []
    {
      Joins.ResolveSpec(FilmUrls(), filmService.films);
      Joins.Resolve(FilmUrls(), filmService.films)
    }

    /** `peopleVehicles`: the person's vehicles found in the vehicle list. */
    function PeopleVehicles(): (r: seq<Entity>)
      reads this, peopleService, vehicleService
      ensures Joins.IsJoin(r, VehicleUrls(), vehicleService.vehicles)
      ensures peopleService.people.None? ==> r == []
    {
      Joins.ResolveSpec(VehicleUrls(), vehicleService.vehicles);
      Joins.Resolve(VehicleUrls(), vehicleService.vehicles)
    }

    /** What the page's `tap` does with a loaded person `p`: non-empty film
        and vehicle arrays go to batch resolution with concurrency 5, a
        non-empty homeworld to `ensurePlanet`; a store given nothing is not
        touched. */
    twostate predicate RelatedRequested(p: Entity, new films: Option<nat>, new vehicles: Option<nat>,
                                        new homeworld: Option<nat>)
      reads this, filmService, vehicleService, planetService
    {
      && (if FilmsOf(p) != [] then
            filmService.SeparatedStarted(FilmsOf(p), RelatedConcurrency, films)
            && filmService.film == old(filmService.film)
          else films == None && unchanged(filmService))
      && (if VehiclesOf(p) != [] then
            vehicleService.SeparatedStarted(VehiclesOf(p), RelatedConcurrency, vehicles)
            && vehicleService.vehicle == old(vehicleService.vehicle)
          else vehicles == None && unchanged(vehicleService))
      && (if HomeworldOf(p) != "" then planetService.EnsureStarted(Some(HomeworldOf(p)), homeworld)
          else homeworld == None && unchanged(planetService))
    }

    /** The page's `tap` on a loaded person; the handles name the batches
        started, if any. */
    method OnPersonLoaded(p: Entity) returns (films: Option<nat>, vehicles: Option<nat>, homeworld: Option<nat>)
      requires Valid()
      modifies filmService, vehicleService, planetService
      ensures Valid()
      ensures RelatedRequested(p, films, vehicles, homeworld)
    {
      films, vehicles, homeworld := None, None, None;
      if FilmsOf(p) != [] {
        films := filmService.GetAllFilmsSeparated(FilmsOf(p), RelatedConcurrency);
      }
      if VehiclesOf(p) != [] {
        vehicles := vehicleService.GetAllVehiclesSeparated(VehiclesOf(p), RelatedConcurrency);
      }
      if HomeworldOf(p) != "" {
        homeworld := planetService.EnsurePlanet(Some(HomeworldOf(p)));
      }
    }

    /** `ngOnInit()`, synchronous part: the person is looked up; a cached
        person reaches the `tap` at once, while a person that must be fetched
        starts nothing yet (see `OnPersonArrived`). */
    method OnInit() returns (reply: DetailReply, films: Option<nat>, vehicles: Option<nat>,
                             homeworld: Option<nat>)
      requires Valid()
      modifies peopleService, filmService, vehicleService, planetService
      ensures Valid()
      ensures peopleService.DetailStarted(id, reply)
      ensures reply.Hit? ==> RelatedRequested(reply.entity, films, vehicles, homeworld)
      ensures reply.DetailRequested? ==>
        && films == None && vehicles == None && homeworld == None
        && unchanged(filmService, vehicleService, planetService)
    {
      reply := peopleService.GetPeople(id);
      films, vehicles, homeworld := None, None, None;
      if reply.Hit? {
        films, vehicles, homeworld := OnPersonLoaded(reply.entity);
      }
    }

    /** The person response for `requested` arrives: the store applies it,
        then a fetched person reaches the page's `tap`. A failure reaches the
        `tap` as null, whose dereference throws, so nothing is started. */
    method OnPersonArrived(requested: Url, outcome: FetchOutcome)
      returns (emitted: Option<Entity>, films: Option<nat>, vehicles: Option<nat>, homeworld: Option<nat>)
      requires Valid() && requested in peopleService.openDetails
      modifies peopleService, filmService, vehicleService, planetService
      ensures Valid()
      ensures peopleService.DetailCompleted(requested, outcome, emitted)
      ensures outcome.Fetched? ==> RelatedRequested(outcome.entity, films, vehicles, homeworld)
      ensures outcome.Failed? ==>
        && films == None && vehicles == None && homeworld == None
        && unchanged(filmService, vehicleService, planetService)
    {
      emitted := peopleService.CompleteGetPeople(requested, outcome);
      films, vehicles, homeworld := None, None, None;
      if outcome.Fetched? {
        films, vehicles, homeworld := OnPersonLoaded(outcome.entity);
      }
    }
  }
}
