# Star Wars client: cache-and-fetch layer

This project is a Dafny model of the data-access layer of a small Angular client for the Star Wars
API, together with the component logic built on top of it.

There are four resource stores: vehicles, people, films and planets. Each store keeps:

- the list shown in the UI;
- the selected entity;
- a `loading` flag and an `error` message;
- one or two caches, which are arrays of entities kept unique by `url`.

Each store offers up to three operations:

- **List** (`getAllX`): serve a cached copy or request the list endpoint.
- **Detail** (`getX(id)`): serve a cached entity or request the canonical url `base/id/`.
- **Batch resolution** (`getAllXSeparated(urls, concurrency)`): remove duplicate urls, drop the
  urls already cached, then fetch the rest through a sliding window of at most `concurrency`
  requests. Each result is merged into the list.

Each store is a class whose fields mirror the store's signals and cache arrays. Every asynchronous
operation is split in two:

- a method for what happens synchronously (clear the error, consult the cache, issue the request);
- a `Complete…` method that applies one HTTP outcome. The environment chooses that outcome, and
  for a batch it also chooses which in-flight request finishes next.

A batch is a pure state machine, `Scheduler.Batch`. It holds:

- the queue of urls;
- how many of them have been requested;
- the requests in flight;
- the window size.

A ghost log `requests` records every GET a store issues. This lets contracts say which requests
an operation makes.

On top of the stores are these pieces of component logic:

- the helper service's error text and endpoint construction;
- the card's route link;
- the vehicle list's trailing-id extraction and image whitelist;
- the film, person and vehicle detail pages:
  - their combined error;
  - their reference joins against the stores' lists;
  - the batch requests their `ngOnInit` issues once the entity arrives;
- the `roman` pipe.

Several quirks of the code are reproduced as written:

- The vehicle store keeps two separate caches: one for detail fetches and one for batches. The
  other stores share one cache between the two.
- The film merge overwrites every list entry with a matching url. The other stores overwrite only
  the first.
- `loading` is one boolean that every completion resets. `VehicleStore.SharedLoadingFlag` shows it
  going false while a detail request is still open.
- The vehicle details page resolves the vehicle's film urls against the vehicle list. It hands
  them to the vehicle store's batch resolution, so the fetched films are merged into the vehicle
  list.
- On the vehicle details page, the detail request's `finalize` runs after the page's `tap` has
  started that batch. `loading` therefore ends false while the batch is still running.

The model follows the code wherever the code's comments describe something else.

## Model

| member | source | states |
|---|---|---|
| Helper.FormatError | src/app/cores/services/helper/helper.service.ts:24-28 | status 0 gives the network text, any other status of 500 or more gives the server text, every other status gives "Error <status>: " followed by the backend message or "Unknown error" |
| Helper.FormatErrorClassifies | src/app/cores/services/helper/helper.service.ts:24-28 | the function is total and its three kinds of message never overlap: each message kind appears exactly for its class of status |
| Helper.FormatErrorKeepsStatus | src/app/cores/services/helper/helper.service.ts:27 | in a client-error message the text between "Error " and the ':' is the status in decimal, and it parses back to the status |
| Helper.TsmsUrl | src/app/cores/services/helper/helper.service.ts:14-16 | the endpoint is the api root, one '/', then the path; `Helper.DetailUrlOfEndpoint` gives the detail urls built on it |
| Helper.DetailUrl | src/app/cores/services/vehicle/vehicle.service.ts:75-76 | the detail url starts with the base and ends with the id enclosed in two '/'; `Helper.DetailUrlShape` gives its exact value |
| Helper.NormalizeBase | src/app/cores/services/vehicle/vehicle.service.ts:75 | the normalised base always ends in '/' |
| Helper.DetailUrlShape | src/app/cores/services/vehicle/vehicle.service.ts:75-76 | the detail url is the base with one '/' added only when missing, then the id, then '/'; a base with or without its trailing '/' gives the same url |
| Helper.DetailUrlOfEndpoint | src/app/cores/services/helper/helper.service.ts:14-16 | for the endpoint `apiUri/path` the detail url of `id` is `apiUri/path/id/` |
| Decimal.NatRoundTrip | src/app/components/vehicles/vehicle-list/vehicles.ts:25 | `Number` of the decimal string of a natural number gives the number back |
| Decimal.IntRoundTrip | src/app/cores/pipes/roman.pipe.ts:13 | `String(n)` (below 10^21 in magnitude) is an optional '-' followed by digits, and reading it back gives `n` |
| Decimal.IntToStringInjective | src/app/cores/pipes/roman.pipe.ts:13 | distinct integers have distinct decimal strings |
| RomanPipe.Transform | src/app/cores/pipes/roman.pipe.ts:12-14 | an episode number 1..7 is shown as a standard numeral (at most one 'V', never more than three 'I's in a row, 'I' before 'V' only as "IV") whose value is the number; other numbers are covered by `RomanPipe.TransformOther` |
| RomanPipe.EpisodeNumeralUnique | src/app/cores/models/enums.ts:5-7 | the numeral shown for 1..7 is the only standard numeral with that value, so 1..7 are shown exactly as the `EpisodeEnum` member names "I" to "VII" |
| RomanPipe.TransformOther | src/app/cores/pipes/roman.pipe.ts:12-14 | every number outside 1..7 is shown as its decimal string (plain digits, as `String(n)` writes below 10^21), which reads back as the number |
| RomanPipe.TransformInjective | src/app/cores/models/enums.ts:5-7 | distinct numbers are shown differently |
| CardView.Split | src/app/components/shared/card/card.ts:49 | `split('/')` always yields at least one piece |
| CardView.JoinSplit | src/app/components/shared/card/card.ts:49 | joining the pieces with '/' gives the url back: splitting loses nothing |
| CardView.SplitLastPiece | src/app/components/shared/card/card.ts:49 | the text after the last '/' is the last piece, and the earlier pieces are those of the text before it |
| CardView.SplitWithoutSeparator | src/app/components/shared/card/card.ts:49 | a string without '/' splits into itself alone |
| CardView.SecondToLast | src/app/components/shared/card/card.ts:50 | the index exists exactly when there are at least two pieces, and it is then the second-to-last piece |
| CardView.RouteFor | src/app/components/shared/card/card.ts:53-65 | `isFilm` gives "/films/" + index whatever the other flags; `isPeople` without `isFilm` gives "/people/" + index; `isVehicles` alone gives "/vehicles/" + index; no flag gives "/" |
| CardView.Card.constructor | src/app/components/shared/card/card.ts:16-44 | the inputs are bound and the derived fields hold their initial values |
| CardView.Card.OnChanges | src/app/components/shared/card/card.ts:47-67 | the three derived fields are the split url (which joins back to the url), its second-to-last piece and the route for the flags; the inputs are unchanged |
| CardView.CardOfResourceUrl | src/app/components/shared/card/card.ts:49-62 | for a url `prefix/id/` the index is `id`, and the film, people and vehicle links are "/films/id", "/people/id" and "/vehicles/id" |
| CardView.CardOfBareUrl | src/app/components/shared/card/card.ts:50-56 | a url without '/' has no index, so a film card links to "/films/undefined" |
| VehicleListPage.TrailingDigits | src/app/components/vehicles/vehicle-list/vehicles.ts:25 | a capture of `/\/(\d+)\/$/` is a non-empty run of digits enclosed in '/' at the end of the url; `VehicleListPage.TrailingDigitsExactly` gives the converse |
| VehicleListPage.IdFromUrl | src/app/components/vehicles/vehicle-list/vehicles.ts:25 | a url the pattern does not match reads as 0; `VehicleListPage.IdOfCanonicalUrl` shows `prefix/n/` reads as `n` |
| VehicleListPage.DigitSuffix | src/app/components/vehicles/vehicle-list/vehicles.ts:25 | the result is the longest all-digit suffix: it is a suffix, all digits, and the character before it is not a digit |
| VehicleListPage.TrailingDigitsExactly | src/app/components/vehicles/vehicle-list/vehicles.ts:25 | the pattern `/\/(\d+)\/$/` captures `d` exactly when the url is `prefix/d/` with `d` a non-empty run of digits |
| VehicleListPage.TrailingDigitsOfCanonical | src/app/components/vehicles/vehicle-list/vehicles.ts:25 | the capture of `prefix/d/` is `d` |
| VehicleListPage.HasImage | src/app/components/vehicles/vehicle-list/vehicles.ts:23-27 | a url without a trailing numeric id never has an image, since its id reads as 0, which is not whitelisted |
| VehicleListPage.IdOfCanonicalUrl | src/app/components/vehicles/vehicle-list/vehicles.ts:23-27 | on `prefix/n/` the id is `n`, and the url has an image exactly when `n` is in {4, 6, 7, 8, 14, 16, 18, 19, 20, 24} |
| VehicleDetailsPage.RouteHasImage | src/app/components/vehicles/vehicle-details/vehicle-details.ts:29-32 | only a non-empty run of digits can have an image |
| VehicleDetailsPage.RouteOfNumber | src/app/components/vehicles/vehicle-details/vehicle-details.ts:27-32 | the route id of a number has an image exactly when the number is whitelisted |
| VehicleDetailsPage.RouteAgreesWithList | src/app/components/vehicles/vehicle-details/vehicle-details.ts:29-32 | the details page and the list page agree: route id `d` has an image exactly when the list's url `prefix/d/` does |
| UrlLists.UrlSet | src/app/cores/services/vehicle/vehicle.service.ts:92 | a url is in the set exactly when some entry has it |
| UrlLists.FirstIndex | src/app/cores/services/vehicle/vehicle.service.ts:129 | `findIndex`: -1 exactly when no entry has the url, otherwise the first position holding it |
| UrlLists.FindByUrl | src/app/cores/services/vehicle/vehicle.service.ts:79 | `find`: none exactly when no entry has the url, otherwise an entry of the array with that url |
| UrlLists.PushIfAbsent | src/app/cores/services/vehicle/vehicle.service.ts:92-94 | afterwards the url is present; an array already holding it is unchanged (first write wins), otherwise the entity is appended; a duplicate-free cache stays duplicate-free |
| UrlLists.LastIndex | src/app/cores/services/planet/planet.service.ts:26-30 | the last position holding the url |
| UrlLists.IndexByUrlLastWins | src/app/cores/services/planet/planet.service.ts:26-30 | the url map holds exactly the urls of the list, each bound to the LAST entry with that url |
| UrlLists.IndexAgreesWithFind | src/app/cores/services/planet/planet.service.ts:26-30 | on a duplicate-free list the url map and `find` agree |
| Dedupe.Distinct | src/app/cores/services/vehicle/vehicle.service.ts:115 | `Array.from(new Set(urls))`: no duplicates, the same urls, in order of first occurrence |
| Dedupe.WithoutCached | src/app/cores/services/vehicle/vehicle.service.ts:116 | exactly the urls with no cache entry, in their order; no duplicates are introduced |
| Dedupe.NotLoaded | src/app/cores/services/vehicle/vehicle.service.ts:115-116 | the batch queue holds each url of the input that is not cached, exactly once, in order of first occurrence |
| Dedupe.NotLoadedSingle | src/app/cores/services/planet/planet.service.ts:49-50 | a single url is queued exactly when it is not cached |
| Merge.ReplaceFirstOrAppend | src/app/cores/services/vehicle/vehicle.service.ts:128-136 | a present url overwrites its first entry in place and leaves the others and the length alone; otherwise the entity is appended at the end |
| Merge.ReplaceEveryOrAppend | src/app/cores/services/film/film.service.ts:121-126 | a present url overwrites every entry with that url and leaves the rest alone; otherwise the entity is appended |
| Merge.MergeLength | src/app/cores/services/vehicle/vehicle.service.ts:128-136 | both merges keep the length when the url is present and grow it by exactly one otherwise; the url is present afterwards |
| Merge.MergeUrls | src/app/cores/services/people/people.service.ts:119-122 | the urls after a merge are the urls before plus the merged one |
| Merge.MergeKeepsUnique | src/app/cores/services/planet/planet.service.ts:76-84 | a merge never introduces a duplicate url into a duplicate-free list |
| Merge.FirstIdempotent | src/app/cores/services/vehicle/vehicle.service.ts:128-136 | merging the same entity twice equals merging it once |
| Merge.EveryIdempotent | src/app/cores/services/film/film.service.ts:121-126 | the same, for the film rule |
| Merge.MergeRulesAgreeWhenUnique | src/app/cores/services/film/film.service.ts:121-126 | on a duplicate-free list the film rule and the first-slot rule give the same list |
| Merge.MergeRulesDifferOnDuplicates | src/app/cores/services/film/film.service.ts:121-126 | on a list holding a url twice, the film rule overwrites both copies and the other rule only the first |
| EpisodeOrder.Insert | src/app/cores/services/film/film.service.ts:51 | one insertion step keeps the films, adds `x` to the multiset and grows the length by one |
| EpisodeOrder.SortByEpisode | src/app/cores/services/film/film.service.ts:51 | the sorted list holds films only and has the length of the input |
| EpisodeOrder.SortIsPermutation | src/app/cores/services/film/film.service.ts:51 | the stored list is a permutation of the results |
| EpisodeOrder.InsertSorted | src/app/cores/services/film/film.service.ts:51 | inserting into a sorted list keeps it sorted |
| EpisodeOrder.SortIsSorted | src/app/cores/services/film/film.service.ts:51 | the stored list is ascending by episode id |
| EpisodeOrder.InsertStable | src/app/cores/services/film/film.service.ts:51 | insertion puts `x` after every film of its episode already present |
| EpisodeOrder.SortIsStable | src/app/cores/services/film/film.service.ts:51 | the films of each episode id keep their response order: the sort is stable |
| ErrorPriority.FirstError | src/app/components/films/film-details/film-details.ts:40-46 | `a ?? b ?? … ?? null`: none exactly when every error is none, otherwise the first present error |
| Joins.Loaded | src/app/components/films/film-details/film-details.ts:53-54 | reference definition: the referenced urls that have an entry in the list, in reference order |
| Joins.LookupIsLoaded | src/app/components/films/film-details/film-details.ts:53-54 | `urls.map(u => map.get(u)).filter(x => !!x)` yields, position by position, the last list entry for each loaded url |
| Joins.ResolveSpec | src/app/components/films/film-details/film-details.ts:50-55 | the join is order-preserving and drops missing urls: its entries are the last list entry for each loaded url, so it is never longer than the reference array |
| Joins.ResolveEmpty | src/app/components/films/film-details/film-details.ts:52 | with no references, or an empty list, the join is empty |
| Scheduler.StartSpec | src/app/cores/services/vehicle/vehicle.service.ts:122-149 | subscribing requests the first `min(|queue|, concurrency)` urls in queue order, and the batch invariant holds |
| Scheduler.CompleteSpec | src/app/cores/services/vehicle/vehicle.service.ts:143-149 | a finished request, successful or not, frees one slot; at most the next queued url is requested; the invariant, including at most `concurrency` in flight, is kept |
| Scheduler.NeverStuck | src/app/cores/services/vehicle/vehicle.service.ts:122-149 | with at least one slot, an unfinished batch always has a request in flight |
| Scheduler.StalledWithoutSlots | src/app/cores/services/vehicle/vehicle.service.ts:148 | with concurrency 0 a non-empty batch requests nothing and never finishes |
| Scheduler.RunSpec | src/app/cores/services/vehicle/vehicle.service.ts:122-150 | whatever order requests finish in, the invariant holds after every step, the urls requested are exactly the next queued ones in queue order, and as many completions as requests remaining finish the batch |
| Scheduler.RunToEnd | src/app/cores/services/vehicle/vehicle.service.ts:122-150 | once enough requests have finished, the batch is finished and every queued url has been requested |
| Scheduler.BatchRequestsEachUrlOnce | src/app/cores/services/vehicle/vehicle.service.ts:115-150 | a whole batch requests every queued url exactly once, in queue order, and then finishes |
| VehicleStore.VehicleService.constructor | src/app/cores/services/vehicle/vehicle.service.ts:12-31 | the endpoint is `apiUri/vehicles`; the caches and lists are empty and nothing is loading |
| VehicleStore.VehicleService.GetAllVehicles | src/app/cores/services/vehicle/vehicle.service.ts:37-49 | clears the error; a non-empty list that was loaded once is served as it is with no request; otherwise the list is cleared, `loading` is set and the endpoint is requested |
| VehicleStore.VehicleService.CompleteGetAllVehicles | src/app/cores/services/vehicle/vehicle.service.ts:49-62 | on success the list is a permutation of the results, marked loaded and emitted; on failure nothing is emitted and the error is set; `loading` ends false |
| VehicleStore.VehicleService.GetVehicle | src/app/cores/services/vehicle/vehicle.service.ts:71-88 | clears the error and looks up `base/id/` in the detail cache: a hit is selected and returned with no request and `loading` untouched; a miss clears the selection, sets `loading` and requests that url |
| VehicleStore.VehicleService.CompleteGetVehicle | src/app/cores/services/vehicle/vehicle.service.ts:88-101 | a fetched vehicle is selected, emitted and pushed into the detail cache unless its url is there; a failure emits null and sets the error; `loading` ends false |
| VehicleStore.VehicleService.GetAllVehiclesSeparated | src/app/cores/services/vehicle/vehicle.service.ts:112-122 | clears the error and queues the distinct urls absent from the batch cache; with none, nothing else changes and no request is made; otherwise `loading` is set and the first window is requested |
| VehicleStore.VehicleService.CompleteSeparatedRequest | src/app/cores/services/vehicle/vehicle.service.ts:124-150 | a fetched vehicle is merged into the list by the first-slot rule and pushed into the batch cache unless present; a failure sets the error and the batch goes on; the batch advances, and a finished batch resets `loading` |
| VehicleStore.VehicleService.AdvanceBatch | src/app/cores/services/vehicle/vehicle.service.ts:148-150 | the freed slot goes to the next queued url; a finished batch is dropped and resets `loading`; nothing else changes |
| VehicleStore.SharedLoadingFlag | src/app/cores/services/vehicle/vehicle.service.ts:100-150 | a batch that finishes resets `loading` while a detail request is still open |
| PeopleStore.PeopleService.constructor | src/app/cores/services/people/people.service.ts:14-29 | the endpoint is `apiUri/people`; the cache and list are empty and nothing is loading |
| PeopleStore.PeopleService.GetAllPeople | src/app/cores/services/people/people.service.ts:35-47 | clears the error; ANY non-empty list is served as it is with no request; otherwise the list is cleared, `loading` is set and the endpoint is requested |
| PeopleStore.PeopleService.CompleteGetAllPeople | src/app/cores/services/people/people.service.ts:47-58 | on success the list is a permutation of the results and is emitted; on failure `[]` is emitted, the error is set and the list is left alone; `loading` ends false |
| PeopleStore.PeopleService.GetPeople | src/app/cores/services/people/people.service.ts:65-82 | clears the error and looks up `base/id/` in the shared cache: a hit is selected with no request; a miss clears the selection, sets `loading` and requests that url |
| PeopleStore.PeopleService.CompleteGetPeople | src/app/cores/services/people/people.service.ts:82-95 | a fetched person is selected, emitted and pushed into the shared cache unless present; a failure emits null and sets the error; `loading` ends false |
| PeopleStore.PeopleService.GetAllPeopleSeparated | src/app/cores/services/people/people.service.ts:104-113 | clears the error and queues the distinct urls absent from the shared cache; with none, no request is made and `loading` is unchanged; otherwise the first window is requested |
| PeopleStore.PeopleService.CompleteSeparatedRequest | src/app/cores/services/people/people.service.ts:115-136 | a fetched person replaces the first list entry with its url or is appended, and is pushed into the shared cache unless present; a failure sets the error; the batch advances |
| PeopleStore.PeopleService.AdvanceBatch | src/app/cores/services/people/people.service.ts:134-136 | the freed slot goes to the next queued url; a finished batch is dropped and resets `loading`; nothing else changes |
| FilmStore.FilmService.constructor | src/app/cores/services/film/film.service.ts:14-31 | the endpoint is `apiUri/films`; the cache and list are empty and nothing is loading |
| FilmStore.FilmService.GetAllFilms | src/app/cores/services/film/film.service.ts:37-47 | clears the error; a non-empty list that was loaded once is served with no request; otherwise the list is cleared, `loading` is set and the endpoint is requested |
| FilmStore.FilmService.CompleteGetAllFilms | src/app/cores/services/film/film.service.ts:49-61 | on success the list is the results sorted ascending by episode id, a permutation of them, marked loaded and emitted; on failure nothing is emitted and the list and flag are left alone; `loading` ends false |
| FilmStore.FilmService.GetFilm | src/app/cores/services/film/film.service.ts:68-85 | clears the error and looks up `base/id/` in the shared cache: a hit is selected with no request; a miss sets `film` to null and `loading` before requesting |
| FilmStore.FilmService.CompleteGetFilm | src/app/cores/services/film/film.service.ts:85-98 | a fetched film is selected, emitted and inserted into the shared cache only if its url is absent; a failure emits null and sets the error |
| FilmStore.FilmService.GetAllFilmsSeparated | src/app/cores/services/film/film.service.ts:107-116 | clears the error and queues the distinct urls absent from the shared cache; with none, nothing is requested; otherwise the first window is requested |
| FilmStore.FilmService.CompleteSeparatedRequest | src/app/cores/services/film/film.service.ts:118-142 | a fetched film overwrites EVERY list entry with its url or is appended, and is pushed into the shared cache unless present; a failure sets the error; the batch advances |
| FilmStore.FilmService.AdvanceBatch | src/app/cores/services/film/film.service.ts:140-142 | the freed slot goes to the next queued url; a finished batch is dropped and resets `loading`; nothing else changes |
| PlanetStore.PlanetService.constructor | src/app/cores/services/planet/planet.service.ts:13-23 | the cache and list are empty and nothing is loading |
| PlanetStore.PlanetService.PlanetIndex | src/app/cores/services/planet/planet.service.ts:26-30 | the loop builds the url map of the list, a later entry overwriting an earlier one |
| PlanetStore.PlanetService.GetPlanetName | src/app/cores/services/planet/planet.service.ts:37-41 | "-" for a missing or empty url; "Loading..." for a url not in the list; otherwise the name of the LAST entry with that url |
| PlanetStore.PlanetService.GetAllPlanetsSeparated | src/app/cores/services/planet/planet.service.ts:61-71 | clears the error and queues the distinct urls absent from the cache; with none, it returns after clearing the error; otherwise `loading` is set and the first window is requested |
| PlanetStore.PlanetService.EnsurePlanet | src/app/cores/services/planet/planet.service.ts:47-52 | nothing at all for a missing or empty url or one already cached; otherwise a batch of that one url with concurrency 1, which requests it at once |
| PlanetStore.PlanetService.CompleteSeparatedRequest | src/app/cores/services/planet/planet.service.ts:72-98 | a fetched planet replaces the first list entry with its url or is appended, and is pushed into the cache unless present; a failure sets the error without stopping the batch; the batch advances |
| PlanetStore.PlanetService.AdvanceBatch | src/app/cores/services/planet/planet.service.ts:96-98 | the freed slot goes to the next queued url; a finished batch is dropped and resets `loading`; nothing else changes |
| FilmDetailsPage.FilmDetails.constructor | src/app/components/films/film-details/film-details.ts:26-32 | the page is bound to the four stores and the route id |
| FilmDetailsPage.FilmDetails.ErrorMsg | src/app/components/films/film-details/film-details.ts:40-46 | the film store's error wins, then the people, planet and vehicle stores' errors; none when no store has one |
| FilmDetailsPage.FilmDetails.FilmPeople | src/app/components/films/film-details/film-details.ts:49-55 | the film's characters joined against the people list, in order and dropping missing urls; empty without a film |
| FilmDetailsPage.FilmDetails.FilmPlanets | src/app/components/films/film-details/film-details.ts:58-64 | the same join of the film's planets against the planet list |
| FilmDetailsPage.FilmDetails.FilmVehicles | src/app/components/films/film-details/film-details.ts:67-73 | the same join of the film's vehicles against the vehicle list |
| FilmDetailsPage.FilmDetails.OnFilmLoaded | src/app/components/films/film-details/film-details.ts:79-91 | each non-empty reference array starts a batch with concurrency 5 in its store; a store with nothing to do is untouched |
| FilmDetailsPage.FilmDetails.OnInit | src/app/components/films/film-details/film-details.ts:75-93 | the film is looked up; a cached film starts the related batches at once; a film that must be fetched starts nothing yet |
| FilmDetailsPage.FilmDetails.OnFilmArrived | src/app/components/films/film-details/film-details.ts:75-93 | the film store applies the response; a fetched film starts the related batches; a failure starts none |
| PeoplePage.People.constructor | src/app/components/people/people/people.ts:24-30 | the page is bound to the four stores and the route id |
| PeoplePage.People.ErrorMsg | src/app/components/people/people/people.ts:38-44 | the people store's error wins, then the planet, film and vehicle stores' errors; none when no store has one |
| PeoplePage.People.PeopleFilms | src/app/components/people/people/people.ts:47-53 | the person's films joined against the film list, in order and dropping missing urls; empty without a person |
| PeoplePage.People.PeopleVehicles | src/app/components/people/people/people.ts:56-62 | the same join of the person's vehicles against the vehicle list |
| PeoplePage.People.OnPersonLoaded | src/app/components/people/people/people.ts:68-76 | non-empty film and vehicle arrays start batches with concurrency 5; a non-empty homeworld goes to `ensurePlanet`; a store with nothing to do is untouched |
| PeoplePage.People.OnInit | src/app/components/people/people/people.ts:64-78 | the person is looked up; a cached person starts the related work at once; a person that must be fetched starts nothing yet |
| PeoplePage.People.OnPersonArrived | src/app/components/people/people/people.ts:64-78 | the people store applies the response; a fetched person starts the related work; a failure starts nothing |
| VehicleDetailsPage.VehicleDetails.constructor | src/app/components/vehicles/vehicle-details/vehicle-details.ts:19-22 | the page is bound to the vehicle store and the route id |
| VehicleDetailsPage.VehicleDetails.VehicleFilms | src/app/components/vehicles/vehicle-details/vehicle-details.ts:44-53 | the vehicle's film urls joined against the VEHICLE list, in order and dropping missing urls; empty without a vehicle |
| VehicleDetailsPage.VehicleDetails.OnVehicleLoaded | src/app/components/vehicles/vehicle-details/vehicle-details.ts:59-63 | a non-empty film array goes to the vehicle store's batch resolution with concurrency 5; otherwise nothing changes |
| VehicleDetailsPage.VehicleDetails.OnInit | src/app/components/vehicles/vehicle-details/vehicle-details.ts:56-65 | a cached vehicle is selected and its film batch started at once, and `loading` reports that batch; a vehicle that must be fetched is requested and starts nothing yet |
| VehicleDetailsPage.VehicleDetails.OnVehicleArrived | src/app/components/vehicles/vehicle-details/vehicle-details.ts:56-65 | the store applies the response; a fetched vehicle starts its film batch; a failure starts nothing; either way `finalize` leaves `loading` false |

## Left out

- HTTP, RxJS and Angular are not modelled. This covers `Observable`, `pipe`, `tap`, `finalize`,
  `subscribe`, signals, `computed`, `inject` and `takeUntilDestroyed`, so unsubscribing when a
  component is destroyed is not captured. Signals are plain fields, and each HTTP response is an
  input (`FetchOutcome`, `ListOutcome`) supplied to a `Complete…` method.
- Requests are recorded when the start method runs. In the code the list and detail observables
  are cold, so their GET goes out when the caller subscribes. Every caller here subscribes at once.
- Real parallelism and timing are not modelled. The environment picks which in-flight request
  finishes next. There are no timeouts; cancellation when a page is destroyed is not modelled
  (see above).
- `VehicleStore.VehicleService.CompleteGetAllVehicles` and
  `PeopleStore.PeopleService.CompleteGetAllPeople` take the order that `sort((a, b) => a.url - b.url)`
  leaves as a parameter. The comparator returns NaN, so the order is up to the JavaScript engine;
  the contracts state only that the list is a permutation of the results.
- `FilmStore.FilmService.CompleteGetAllFilms` requires that a list response holds films only, as
  its declared response type says.
- Only the first page of each list endpoint is used. `next`, `previous` and `count` are ignored.
- `VehicleDetailsPage.RouteHasImage` reads a route id as a number only when it is a plain run of
  digits. JavaScript's `Number` also accepts surrounding whitespace, a sign, a fraction, an
  exponent and hexadecimal forms, such as "14.0" or "0xE"; these are not modelled.
- `VehicleListPage.IdOfCanonicalUrl` and `Decimal.NatRoundTrip` use unbounded integers. Digit
  strings beyond 2^53 lose precision in JavaScript, and that is not modelled.
- `RomanPipe.Transform` takes integers only. Fractional numbers and `NaN` are not modelled.
- `RomanPipe.TransformOther` describes `String(n)` only below 10^21 in magnitude, which every
  episode id is: from there JavaScript switches to exponent form ("1e+21"), while
  `Decimal.IntToString` always writes plain digits.
- `Decimal.IntRoundTrip` likewise describes `String(n)` only below 10^21 in magnitude.
- A detail request that fails emits null, and the page's `tap` then dereferences it and throws.
  The model represents this only as "no batch is started". The exception itself is not modelled.
- The default `concurrency = 3` of the batch operations is not modelled, because every caller
  passes 5 or 1 explicitly.
- `config/url.json` is not part of this model. The API root `apiUri` is a constructor parameter.
- `VehicleDetailsPage.VehicleDetails.ErrorMsg` has no contract: it is the vehicle store's error
  as it is.
- The `…Urls` computeds of the pages are plain functions with no contract. The joins that use
  them state what they mean.
- View glue is not modelled: routes, the header, buttons, chips, the error and info-content
  components, the list pages' `ngOnInit`, and the entity model interfaces beyond `url` and the
  reference arrays.
