/** The film store. Split into synchronous starts and environment-driven
    completions as the vehicle store is. Detail lookups and batch resolution
    share ONE cache, `cachedFilms`; the list is stored sorted by episode id;
    a batch merge replaces EVERY list entry with the fetched film's url. */
module FilmStore {
  import opened Entities
  import opened UrlLists
  import Merge
  import Dedupe
  import Helper
  import Scheduler
  import opened EpisodeOrder

  class FilmService {
    /** The list endpoint, `apiUri/films`. */
    const url: Url
    var cachedFilms: seq<Entity>
    var films: seq<Entity>
    var film: Option<Entity>
    var loading: bool
    var listLoaded: bool
    var error: Option<string>
    /** Batch resolutions still running, by the handle their start returned. */
    var batches: map<nat, Scheduler.Batch>
    var nextBatch: nat
    /** Every GET this store has issued, in order. */
    ghost var requests: seq<Url>
    /** Detail GETs issued and not yet answered. */
    ghost var openDetails: multiset<Url>
    /** List GETs issued and not yet answered. */
    ghost var openLists: nat

    ghost predicate Valid()
      reads this
    {
      && UniqueUrls(cachedFilms)
      && forall id :: id in batches ==> id < nextBatch && Scheduler.Valid(batches[id])
    }

    constructor (apiUri: string)
      ensures Valid()
      ensures url == Helper.TsmsUrl(apiUri, "films")
      ensures cachedFilms == [] && films == [] && film == None
      ensures !loading && !listLoaded && error == None
      ensures batches == map[] && requests == [] && openDetails == multiset{} && openLists == 0
    {
      url := Helper.TsmsUrl(apiUri, "films");
      cachedFilms, films, film := [], [], None;
      loading, listLoaded, error := false, false, None;
      batches, nextBatch := map[], 0;
      requests, openDetails, openLists := [], multiset{}, 0;
    }

    /** `getAllFilms()`, synchronous part: a non-empty list that was loaded
        once is served as a copy with no request; otherwise the list is cleared
        and the list endpoint requested. */
    method GetAllFilms() returns (reply: ListReply)
      requires Valid()
      modifies this
      ensures Valid()
      ensures error == None
      ensures old(|films| > 0 && listLoaded) ==>
        && reply == Served(old(films)) && films == old(films)
        && loading == old(loading) && requests == old(requests) && openLists == old(openLists)
      ensures !old(|films| > 0 && listLoaded) ==>
        && reply == ListRequested(url) && films == []
        && loading && requests == old(requests) + [url] && openLists == old(openLists) + 1
      ensures cachedFilms == old(cachedFilms) && film == old(film) && listLoaded == old(listLoaded)
      ensures batches == old(batches) && nextBatch == old(nextBatch) && openDetails == old(openDetails)
    {
      error := None;
      if |films| > 0 && listLoaded {
        return Served(films);
      }
      loading := true;
      films := [];
      requests := requests + [url];
      openLists := openLists + 1;
      reply := ListRequested(url);
    }

    /** The list response arrives. On success the list becomes the results
        sorted ascending by episode id (ties kept in response order), is marked
        loaded and is emitted; on failure the error is set, nothing is emitted
        and the list and flag are left alone. `loading` ends false. */
    method CompleteGetAllFilms(outcome: ListOutcome) returns (emitted: Option<seq<Entity>>)
      requires Valid() && openLists > 0
      requires outcome.Listed? ==> AllFilms(outcome.results)
      modifies this
      ensures Valid()
      ensures !loading && openLists == old(openLists) - 1
      ensures outcome.Listed? ==>
        && films == SortByEpisode(outcome.results) && AllFilms(films)
        && SortedByEpisode(films) && multiset(films) == multiset(outcome.results)
        && listLoaded && emitted == Some(films) && error == old(error)
      ensures outcome.ListFailed? ==>
        && films == old(films) && listLoaded == old(listLoaded) && emitted == None
        && error == Some(Helper.FormatError(outcome.error))
      ensures cachedFilms == old(cachedFilms) && film == old(film)
      ensures batches == old(batches) && nextBatch == old(nextBatch)
      ensures requests == old(requests) && openDetails == old(openDetails)
    {
      match outcome {
        case Listed(results) =>
          SortIsSorted(results);
          SortIsPermutation(results);
          films := SortByEpisode(results);
          listLoaded := true;
          emitted := Some(films);
        case ListFailed(e) =>
          error := Some(Helper.FormatError(e));
          emitted := None;
      }
      loading := false;
      openLists := openLists - 1;
    }

    /** What `getFilm(id)` does synchronously: clear the error and look the
        canonical url up in the shared cache; a hit is selected and returned
        with no request and no change to `loading`; a miss clears the selection,
        sets `loading` and requests the url. Nothing else changes. */
    twostate predicate DetailStarted(id: string, new reply: DetailReply)
      reads this
    {
      var wanted := Helper.DetailUrl(url, id);
      && error == None
      && cachedFilms == old(cachedFilms) && films == old(films) && listLoaded == old(listLoaded)
      && batches == old(batches) && nextBatch == old(nextBatch) && openLists == old(openLists)
      && match FindByUrl(old(cachedFilms), wanted)
         case Some(hit) =>
           && reply == Hit(hit) && film == Some(hit) && loading == old(loading)
           && requests == old(requests) && openDetails == old(openDetails)
         case None =>
           && reply == DetailRequested(wanted) && film == None && loading
           && requests == old(requests) + [wanted] && openDetails == old(openDetails) + multiset{wanted}
    }

    /** `getFilm(id)`, synchronous part. */
    method GetFilm(id: string) returns (reply: DetailReply)
      requires Valid()
      modifies this
      ensures Valid()
      ensures DetailStarted(id, reply)
    {
      error := None;
      var wanted := Helper.DetailUrl(url, id);
      var hit := FindByUrl(cachedFilms, wanted);
      if hit.Some? {
        film := hit;
        return Hit(hit.value);
      }
      loading := true;
      film := None;
      requests := requests + [wanted];
      openDetails := openDetails + multiset{wanted};
      reply := DetailRequested(wanted);
    }

    /** What the arrival of the detail response for `requested` does. A film is selected,
        emitted and added to the shared cache unless its url is already there;
        a failure emits null and sets the error. */
    twostate predicate DetailCompleted(requested: Url, outcome: FetchOutcome, new emitted: Option<Entity>)
      reads this
    {
      && !loading && openDetails + multiset{requested} == old(openDetails)
      && (outcome.Fetched? ==>
          && emitted == Some(outcome.entity) && film == Some(outcome.entity)
          && cachedFilms == PushIfAbsent(old(cachedFilms), outcome.entity) && error == old(error))
      && (outcome.Failed? ==>
          && emitted == None && film == old(film) && cachedFilms == old(cachedFilms)
          && error == Some(Helper.FormatError(outcome.error)))
      && films == old(films) && listLoaded == old(listLoaded)
      && batches == old(batches) && nextBatch == old(nextBatch)
      && requests == old(requests) && openLists == old(openLists)
    }

    /** The detail response for `requested` arrives. */
    method CompleteGetFilm(requested: Url, outcome: FetchOutcome) returns (emitted: Option<Entity>)
      requires Valid() && requested in openDetails
      modifies this
      ensures Valid()
      ensures DetailCompleted(requested, outcome, emitted)
    {
      match outcome {
        case Fetched(f) =>
          var cache := PushIfAbsent(cachedFilms, f);
          film, cachedFilms, emitted := Some(f), cache, Some(f);
        case Failed(e) =>
          error := Some(Helper.FormatError(e));
          emitted := None;
      }
      loading := false;
      openDetails := openDetails[requested := openDetails[requested] - 1];
    }

    /** What `getAllFilmsSeparated(urls, concurrency)` does synchronously:
        clear the error; the distinct urls absent from the shared cache are
        queued; if none, nothing else happens; otherwise `loading` is set and
        the first window requested. The selected film is not part of it. */
    twostate predicate SeparatedStarted(urls: seq<Url>, concurrency: nat, new handle: Option<nat>)
      reads this
    {
      var queue := Dedupe.NotLoaded(urls, old(cachedFilms));
      && error == None
      && cachedFilms == old(cachedFilms) && films == old(films) && listLoaded == old(listLoaded)
      && openDetails == old(openDetails) && openLists == old(openLists)
      && if queue == [] then
           && handle == None && loading == old(loading) && batches == old(batches)
           && nextBatch == old(nextBatch) && requests == old(requests)
         else
           && handle == Some(old(nextBatch)) && loading && nextBatch == old(nextBatch) + 1
           && batches == old(batches)[old(nextBatch) := Scheduler.Start(queue, concurrency)]
           && requests == old(requests) + Scheduler.Start(queue, concurrency).inFlight
    }

    /** `getAllFilmsSeparated(urls, concurrency)`; the returned handle names
        the batch for `CompleteSeparatedRequest`. */
    method GetAllFilmsSeparated(urls: seq<Url>, concurrency: nat) returns (handle: Option<nat>)
      requires Valid()
      modifies this
      ensures Valid()
      ensures SeparatedStarted(urls, concurrency, handle) && film == old(film)
    {
      error := None;
      var queue := Dedupe.NotLoaded(urls, cachedFilms);
      if queue == [] {
        return None;
      }
      loading := true;
      Scheduler.StartSpec(queue, concurrency);
      var b := Scheduler.Start(queue, concurrency);
      batches := batches[nextBatch := b];
      handle := Some(nextBatch);
      nextBatch := nextBatch + 1;
      requests := requests + b.inFlight;
    }

    /** One request `u` of batch `handle` finishes. A fetched film replaces
        EVERY list entry with its url, or is appended when there is none, and
        is pushed into the shared cache unless present; a failure only sets the
        error. The freed slot goes to the next queued url; a finished batch
        resets `loading`. */
    method CompleteSeparatedRequest(handle: nat, u: Url, outcome: FetchOutcome)
      requires Valid() && handle in batches && u in batches[handle].inFlight
      modifies this
      ensures Valid()
      ensures var b := old(batches[handle]);
        var next := Scheduler.Complete(b, u);
        && requests == old(requests) + Scheduler.Launched(b, next)
        && if Scheduler.Finished(next) then batches == old(batches) - {handle} && !loading
           else batches == old(batches)[handle := next] && loading == old(loading)
      ensures outcome.Fetched? ==>
        && films == Merge.ReplaceEveryOrAppend(old(films), outcome.entity)
        && cachedFilms == PushIfAbsent(old(cachedFilms), outcome.entity)
        && error == old(error)
      ensures outcome.Failed? ==>
        && films == old(films) && cachedFilms == old(cachedFilms)
        && error == Some(Helper.FormatError(outcome.error))
      ensures film == old(film) && listLoaded == old(listLoaded) && nextBatch == old(nextBatch)
      ensures openDetails == old(openDetails) && openLists == old(openLists)
    {
      match outcome {
        case Fetched(f) =>
          films, cachedFilms := Merge.ReplaceEveryOrAppend(films, f), PushIfAbsent(cachedFilms, f);
        case Failed(e) =>
          error := Some(Helper.FormatError(e));
      }
      AdvanceBatch(handle, u);
    }

    /** The bookkeeping part of a finished request: `u` leaves batch `handle`,
        the freed slot goes to the next queued url, and a batch with nothing
        left is dropped and resets `loading`. Nothing else changes. */
    method AdvanceBatch(handle: nat, u: Url)
      requires Valid() && handle in batches && u in batches[handle].inFlight
      modifies this
      ensures Valid()
      ensures var b := old(batches[handle]);
        var next := Scheduler.Complete(b, u);
        && requests == old(requests) + Scheduler.Launched(b, next)
        && if Scheduler.Finished(next) then batches == old(batches) - {handle} && !loading
           else batches == old(batches)[handle := next] && loading == old(loading)
      ensures films == old(films) && cachedFilms == old(cachedFilms) && error == old(error)
      ensures film == old(film) && listLoaded == old(listLoaded) && nextBatch == old(nextBatch)
      ensures openDetails == old(openDetails) && openLists == old(openLists)
    {
      var b := batches[handle];
      Scheduler.CompleteSpec(b, u);
      var next := Scheduler.Complete(b, u);
      requests := requests + Scheduler.Launched(b, next);
      if Scheduler.Finished(next) {
        batches := batches - {handle};
        loading := false;
      } else {
        batches := batches[handle := next];
      }
    }
  }
}
