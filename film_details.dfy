/** The film details page: the selected film, the combined error of the four
    stores it uses, the film's characters, planets and vehicles resolved
    against the lists those stores hold, and the initial load that asks each
    store to resolve the film's references in batches of five. */
module FilmDetailsPage {
  import opened Entities
  import Joins
  import ErrorPriority
  import FilmStore
  import PeopleStore
  import PlanetStore
  import VehicleStore

  /** The concurrency the page asks for when resolving references. */
  const RelatedConcurrency: nat := 5

  class FilmDetails {
    const filmService: FilmStore.FilmService
    const peopleService: PeopleStore.PeopleService
    const planetService: PlanetStore.PlanetService
    const vehicleService: VehicleStore.VehicleService
    /** The film id from the route. */
    const id: string

    ghost predicate Valid()
      reads this, filmService, peopleService, planetService, vehicleService
    {
      filmService.Valid() && peopleService.Valid() && planetService.Valid() && vehicleService.Valid()
    }

    constructor (filmService: FilmStore.FilmService, peopleService: PeopleStore.PeopleService,
                 planetService: PlanetStore.PlanetService, vehicleService: VehicleStore.VehicleService,
                 id: string)
      ensures this.filmService == filmService && this.peopleService == peopleService
      ensures this.planetService == planetService && this.vehicleService == vehicleService
      ensures this.id == id
    {
      this.filmService, this.peopleService := filmService, peopleService;
      this.planetService, this.vehicleService := planetService, vehicleService;
      this.id := id;
    }

    /** `errorMsg`: the film store's error wins, then the people, planet and
        vehicle stores' in that order; none when no store has one. */
    function ErrorMsg(): (r: Option<string>)
      reads this, filmService, peopleService, planetService, vehicleService
      ensures filmService.error.Some? ==> r == filmService.error
      ensures filmService.error.None? && peopleService.error.Some? ==> r == peopleService.error
      ensures filmService.error.None? && peopleService.error.None? && planetService.error.Some? ==>
        r == planetService.error
      ensures filmService.error.None? && peopleService.error.None? && planetService.error.None? ==>
        r == vehicleService.error
    {
      var errors := [filmService.error, peopleService.error, planetService.error, vehicleService.error];
      assert errors[0] == filmService.error && errors[1] == peopleService.error;
      assert errors[2] == planetService.error && errors[3] == vehicleService.error;
      ErrorPriority.FirstError(errors)
    }

    /** `characterUrls`: the selected film's characters, none without a film. */
    function CharacterUrls(): seq<Url>
      reads this, filmService
    {
      match filmService.film
      case Some(f) => CharactersOf(f)
      case None => []
    }

    function PlanetUrls(): seq<Url>
      reads this, filmService
    {
      match filmService.film
      case Some(f) => PlanetsOf(f)
      case None => []
    }

    function VehicleUrls(): seq<Url>
      reads this, filmService
    {
      match filmService.film
      case Some(f) => VehiclesOf(f)
      case None => []
    }

    /** `filmPeople`: the film's characters found in the people list, in the
        film's order, each the last list entry with its url. */
    function FilmPeople(): (r: seq<Entity>)
      reads this, filmService, peopleService
      ensures Joins.IsJoin(r, CharacterUrls(), peopleService.peopleList)
      ensures filmService.film.None? ==> r == []
    {
      Joins.ResolveSpec(CharacterUrls(), peopleService.peopleList);
      Joins.Resolve(CharacterUrls(), peopleService.peopleList)
    }

    /** `filmPlanets`: the film's planets found in the planet list. */
    function FilmPlanets(): (r: seq<Entity>)
      reads this, filmService, planetService
      ensures Joins.IsJoin(r, PlanetUrls(), planetService.planets)
      ensures filmService.film.None? ==> r == []
    {
      Joins.ResolveSpec(PlanetUrls(), planetService.planets);
      Joins.Resolve(PlanetUrls(), planetService.planets)
    }

    /** `filmVehicles`: the film's vehicles found in the vehicle list. */
    function FilmVehicles(): (r: seq<Entity>)
      reads this, filmService, vehicleService
      ensures Joins.IsJoin(r, VehicleUrls(), vehicleService.vehicles)
      ensures filmService.film.None? ==> r == []
    {
      Joins.ResolveSpec(VehicleUrls(), vehicleService.vehicles);
      Joins.Resolve(VehicleUrls(), vehicleService.vehicles)
    }

    /** What the page's `tap` does with a loaded film `f`: each non-empty
        reference array is handed to its store's batch resolution with
        concurrency 5, and a store whose array is empty is not touched. */
    twostate predicate RelatedRequested(f: Entity, new people: Option<nat>, new planets: Option<nat>,
                                        new vehicles: Option<nat>)
      reads this, peopleService, planetService, vehicleService
    {
      && (if CharactersOf(f) != [] then
            peopleService.SeparatedStarted(CharactersOf(f), RelatedConcurrency, people)
            && peopleService.people == old(peopleService.people)
          else people == None && unchanged(peopleService))
      && (if PlanetsOf(f) != [] then
            planetService.SeparatedStarted(PlanetsOf(f), RelatedConcurrency, planets)
          else planets == None && unchanged(planetService))
      && (if VehiclesOf(f) != [] then
            vehicleService.SeparatedStarted(VehiclesOf(f), RelatedConcurrency, vehicles)
            && vehicleService.vehicle == old(vehicleService.vehicle)
          else vehicles == None && unchanged(vehicleService))
    }

    /** The page's `tap` on a loaded film; the handles name the batches
        started, if any. */
    method OnFilmLoaded(f: Entity) returns (people: Option<nat>, planets: Option<nat>, vehicles: Option<nat>)
      requires Valid()
      modifies peopleService, planetService, vehicleService
      ensures Valid()
      ensures RelatedRequested(f, people, planets, vehicles)
    {
      people, planets, vehicles := None, None, None;
      if CharactersOf(f) != [] {
        people := peopleService.GetAllPeopleSeparated(CharactersOf(f), RelatedConcurrency);
      }
      if PlanetsOf(f) != [] {
        planets := planetService.GetAllPlanetsSeparated(PlanetsOf(f), RelatedConcurrency);
      }
      if VehiclesOf(f) != [] {
        vehicles := vehicleService.GetAllVehiclesSeparated(VehiclesOf(f), RelatedConcurrency);
      }
    }

    /** `ngOnInit()`, synchronous part: the film is looked up; a cached film
        reaches the `tap` at once and starts the related batches, while a film
        that must be fetched starts nothing yet (see `OnFilmArrived`). */
    method OnInit() returns (reply: DetailReply, people: Option<nat>, planets: Option<nat>,
                             vehicles: Option<nat>)
      requires Valid()
      modifies filmService, peopleService, planetService, vehicleService
      ensures Valid()
      ensures filmService.DetailStarted(id, reply)
      ensures reply.Hit? ==> RelatedRequested(reply.entity, people, planets, vehicles)
      ensures reply.DetailRequested? ==>
        && people == None && planets == None && vehicles == None
        && unchanged(peopleService, planetService, vehicleService)
    {
      reply := filmService.GetFilm(id);
      people, planets, vehicles := None, None, None;
      if reply.Hit? {
        people, planets, vehicles := OnFilmLoaded(reply.entity);
      }
    }

    /** The film response for `requested` arrives: the store applies it, then
        a fetched film reaches the page's `tap`. A failure reaches the `tap` as
        null, whose dereference throws, so no batch is started. */
    method OnFilmArrived(requested: Url, outcome: FetchOutcome)
      returns (emitted: Option<Entity>, people: Option<nat>, planets: Option<nat>, vehicles: Option<nat>)
      requires Valid() && requested in filmService.openDetails
      modifies filmService, peopleService, planetService, vehicleService
      ensures Valid()
      ensures filmService.DetailCompleted(requested, outcome, emitted)
      ensures outcome.Fetched? ==> RelatedRequested(outcome.entity, people, planets, vehicles)
      ensures outcome.Failed? ==>
        && people == None && planets == None && vehicles == None
        && unchanged(peopleService, planetService, vehicleService)
    {
      emitted := filmService.CompleteGetFilm(requested, outcome);
      people, planets, vehicles := None, None, None;
      if outcome.Fetched? {
        people, planets, vehicles := OnFilmLoaded(outcome.entity);
      }
    }
  }
}
