/** Records exchanged with the Star Wars API and the inputs the environment feeds
    to the stores: HTTP outcomes and the replies of the synchronous half of each
    store operation. */
module Entities {

  /** A canonical resource address such as "https://swapi.dev/api/films/2/". */
  type Url = string

  datatype Option<+T> = None | Some(value: T)

  /** One fetched record, as far as the data-access layer looks into it: its
      canonical `url` plus the fields the stores and detail pages read. The
      variant records which endpoint shape the JSON has; a store keeps whatever
      its HTTP call returned. */
  datatype Entity =
    | Film(url: Url, title: string, episodeId: int,
           characters: seq<Url>, planets: seq<Url>, vehicles: seq<Url>)
    | Person(url: Url, name: string, homeworld: string,
             films: seq<Url>, vehicles: seq<Url>)
    | Planet(url: Url, name: string)
    | Vehicle(url: Url, name: string, films: seq<Url>)

  /** A failed HTTP call: its status (0 when no response arrived) and the
      `message` of the backend's error body, if there was one. */
  datatype HttpError = HttpError(status: int, message: Option<string>)

  /** Outcome of one GET of a single entity. */
  datatype FetchOutcome = Fetched(entity: Entity) | Failed(error: HttpError)

  /** Outcome of one GET of a list endpoint (the `results` of its first page). */
  datatype ListOutcome = Listed(results: seq<Entity>) | ListFailed(error: HttpError)

  /** What a list operation does synchronously: hand back a copy of the cached
      list, or issue a GET to `url`. */
  datatype ListReply = Served(list: seq<Entity>) | ListRequested(url: Url)

  /** What a detail operation does synchronously: hand back the cached entity, or
      issue a GET to `url`. */
  datatype DetailReply = Hit(entity: Entity) | DetailRequested(url: Url)

  // Reference fields read with `?? []`: a record without the field has none.

  function CharactersOf(e: Entity): seq<Url> { if e.Film? then e.characters else [] }

  function PlanetsOf(e: Entity): seq<Url> { if e.Film? then e.planets else [] }

  function VehiclesOf(e: Entity): seq<Url> { if e.Film? || e.Person? then e.vehicles else [] }

  function FilmsOf(e: Entity): seq<Url> { if e.Person? || e.Vehicle? then e.films else [] }

  /** `found?.name`: films carry a `title` instead of a `name`. */
  function NameOf(e: Entity): Option<string> { if e.Film? then None else Some(e.name) }

  /** The `homeworld` of a person, empty when the record has none. */
  function HomeworldOf(e: Entity): string { if e.Person? then e.homeworld else "" }
}
