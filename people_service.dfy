/** The people store. Split into synchronous starts and environment-driven
    completions as the vehicle store is. Detail lookups and batch resolution
    share ONE cache, `cachedPeople`; the list is served from memory whenever it
    is non-empty, and a failed list load emits an empty list. */
module PeopleStore {
  import opened Entities
  import opened UrlLists
  import Merge
  import Dedupe
  import Helper
  import Scheduler

  class PeopleService {
    /** The list endpoint, `apiUri/people`. */
    const url: Url
    var cachedPeople: seq<Entity>
    var peopleList: seq<Entity>
    var people: Option<Entity>
    var loading: bool
    var error: Option<string>
    /** Batch resolutions still running, by the handle their start returned. */
    var batches: map<nat, Scheduler.Batch>
    var nextBatch: nat
    /** Every GET this store has issued, in order. */
    ghost var requests: seq<Url>
    /** Detail GETs issued and not yet answered. */
    ghost var openDetails: multiset<Url>
    /** List GETs issued and not yet answered. */
    ghost var openLists: nat

    ghost predicate Valid()
      reads this
    {
      && UniqueUrls(cachedPeople)
      && forall id :: id in batches ==> id < nextBatch && Scheduler.Valid(batches[id])
    }

    constructor (apiUri: string)
      ensures Valid()
      ensures url == Helper.TsmsUrl(apiUri, "people")
      ensures cachedPeople == [] && peopleList == [] && people == None
      ensures !loading && error == None
      ensures batches == map[] && requests == [] && openDetails == multiset{} && openLists == 0
    {
      url := Helper.TsmsUrl(apiUri, "people");
      cachedPeople, peopleList, people := [], [], None;
      loading, error := false, None;
      batches, nextBatch := map[], 0;
      requests, openDetails, openLists := [], multiset{}, 0;
    }

    /** `getAllPeople()`, synchronous part: ANY non-empty list is served as a
        copy with no request, even one filled only by batch resolution;
        otherwise the list is cleared and the list endpoint requested. */
    method GetAllPeople() returns (reply: ListReply)
      requires Valid()
      modifies this
      ensures Valid()
      ensures error == None
      ensures |old(peopleList)| > 0 ==>
        && reply == Served(old(peopleList)) && peopleList == old(peopleList)
        && loading == old(loading) && requests == old(requests) && openLists == old(openLists)
      ensures |old(peopleList)| == 0 ==>
        && reply == ListRequested(url) && peopleList == []
        && loading && requests == old(requests) + [url] && openLists == old(openLists) + 1
      ensures cachedPeople == old(cachedPeople) && people == old(people)
      ensures batches == old(batches) && nextBatch == old(nextBatch) && openDetails == old(openDetails)
    {
      error := None;
      if |peopleList| > 0 {
        return Served(peopleList);
      }
      loading := true;
      peopleList := [];
      requests := requests + [url];
      openLists := openLists + 1;
      reply := ListRequested(url);
    }

    /** The list response arrives. On success the list becomes the results in
        the order `sort((a, b) => a.url - b.url)` leaves them (`engineOrder`,
        some permutation); on failure the error is set and an empty list is
        emitted, the stored list being left as it is. `loading` ends false. */
    method CompleteGetAllPeople(outcome: ListOutcome, engineOrder: seq<Entity>)
      returns (emitted: seq<Entity>)
      requires Valid() && openLists > 0
      requires outcome.Listed? ==> multiset(engineOrder) == multiset(outcome.results)
      modifies this
      ensures Valid()
      ensures !loading && openLists == old(openLists) - 1
      ensures outcome.Listed? ==>
        && peopleList == engineOrder && multiset(peopleList) == multiset(outcome.results)
        && emitted == peopleList && error == old(error)
      ensures outcome.ListFailed? ==>
        && peopleList == old(peopleList) && emitted == []
        && error == Some(Helper.FormatError(outcome.error))
      ensures cachedPeople == old(cachedPeople) && people == old(people)
      ensures batches == old(batches) && nextBatch == old(nextBatch)
      ensures requests == old(requests) && openDetails == old(openDetails)
    {
      match outcome {
        case Listed(_) =>
          peopleList := engineOrder;
          emitted := engineOrder;
        case ListFailed(e) =>
          error := Some(Helper.FormatError(e));
          emitted := [];
      }
      loading := false;
      openLists := openLists - 1;
    }

    /** What `getPeople(id)` does synchronously: clear the error and look the
        canonical url up in the shared cache; a hit is selected and returned
        with no request and no change to `loading`; a miss clears the selection,
        sets `loading` and requests the url. Nothing else changes. */
    twostate predicate DetailStarted(id: string, new reply: DetailReply)
      reads this
    {
      var wanted := Helper.DetailUrl(url, id);
      && error == None
      && cachedPeople == old(cachedPeople) && peopleList == old(peopleList)
      && batches == old(batches) && nextBatch == old(nextBatch) && openLists == old(openLists)
      && match FindByUrl(old(cachedPeople), wanted)
         case Some(hit) =>
           && reply == Hit(hit) && people == Some(hit) && loading == old(loading)
           && requests == old(requests) && openDetails == old(openDetails)
         case None =>
           && reply == DetailRequested(wanted) && people == None && loading
           && requests == old(requests) + [wanted] && openDetails == old(openDetails) + multiset{wanted}
    }

    /** `getPeople(id)`, synchronous part. */
    method GetPeople(id: string) returns (reply: DetailReply)
      requires Valid()
      modifies this
      ensures Valid()
      ensures DetailStarted(id, reply)
    {
      error := None;
      var wanted := Helper.DetailUrl(url, id);
      var hit := FindByUrl(cachedPeople, wanted);
      if hit.Some? {
        people := hit;
        return Hit(hit.value);
      }
      loading := true;
      people := None;
      requests := requests + [wanted];
      openDetails := openDetails + multiset{wanted};
      reply := DetailRequested(wanted);
    }

    /** What the arrival of the detail response for `requested` does. A person is selected,
        emitted and added to the shared cache unless its url is already there;
        a failure emits null and sets the error. */
    twostate predicate DetailCompleted(requested: Url, outcome: FetchOutcome, new emitted: Option<Entity>)
      reads this
    {
      && !loading && openDetails + multiset{requested} == old(openDetails)
      && (outcome.Fetched? ==>
          && emitted == Some(outcome.entity) && people == Some(outcome.entity)
          && cachedPeople == PushIfAbsent(old(cachedPeople), outcome.entity) && error == old(error))
      && (outcome.Failed? ==>
          && emitted == None && people == old(people) && cachedPeople == old(cachedPeople)
          && error == Some(Helper.FormatError(outcome.error)))
      && peopleList == old(peopleList) && batches == old(batches) && nextBatch == old(nextBatch)
      && requests == old(requests) && openLists == old(openLists)
    }

    /** The detail response for `requested` arrives. */
    method CompleteGetPeople(requested: Url, outcome: FetchOutcome) returns (emitted: Option<Entity>)
      requires Valid() && requested in openDetails
      modifies this
      ensures Valid()
      ensures DetailCompleted(requested, outcome, emitted)
    {
      match outcome {
        case Fetched(p) =>
          var cache := PushIfAbsent(cachedPeople, p);
          people, cachedPeople, emitted := Some(p), cache, Some(p);
        case Failed(e) =>
          error := Some(Helper.FormatError(e));
          emitted := None;
      }
      loading := false;
      openDetails := openDetails[requested := openDetails[requested] - 1];
    }

    /** What `getAllPeopleSeparated(urls, concurrency)` does synchronously:
        clear the error; the distinct urls absent from the shared cache are
        queued; if none, nothing else happens; otherwise `loading` is set and
        the first window requested. The selected person is not part of it. */
    twostate predicate SeparatedStarted(urls: seq<Url>, concurrency: nat, new handle: Option<nat>)
      reads this
    {
      var queue := Dedupe.NotLoaded(urls, old(cachedPeople));
      && error == None
      && cachedPeople == old(cachedPeople) && peopleList == old(peopleList)
      && openDetails == old(openDetails) && openLists == old(openLists)
      && if queue == [] then
           && handle == None && loading == old(loading) && batches == old(batches)
           && nextBatch == old(nextBatch) && requests == old(requests)
         else
           && handle == Some(old(nextBatch)) && loading && nextBatch == old(nextBatch) + 1
           && batches == old(batches)[old(nextBatch) := Scheduler.Start(queue, concurrency)]
           && requests == old(requests) + Scheduler.Start(queue, concurrency).inFlight
    }

    /** `getAllPeopleSeparated(urls, concurrency)`; the returned handle names
        the batch for `CompleteSeparatedRequest`. */
    method GetAllPeopleSeparated(urls: seq<Url>, concurrency: nat) returns (handle: Option<nat>)
      requires Valid()
      modifies this
      ensures Valid()
      ensures SeparatedStarted(urls, concurrency, handle) && people == old(people)
    {
      error := None;
      var queue := Dedupe.NotLoaded(urls, cachedPeople);
      if queue == [] {
        return None;
      }
      loading := true;
      Scheduler.StartSpec(queue, concurrency);
      var b := Scheduler.Start(queue, concurrency);
      batches := batches[nextBatch := b];
      handle := Some(nextBatch);
      nextBatch := nextBatch + 1;
      requests := requests + b.inFlight;
    }

    /** One request `u` of batch `handle` finishes. A fetched person replaces
        the FIRST list entry with its url, or is appended, and is pushed into
        the shared cache unless present; a failure only sets the error. The
        freed slot goes to the next queued url; a finished batch resets
        `loading`. */
    method CompleteSeparatedRequest(handle: nat, u: Url, outcome: FetchOutcome)
      requires Valid() && handle in batches && u in batches[handle].inFlight
      modifies this
      ensures Valid()
      ensures var b := old(batches[handle]);
        var next := Scheduler.Complete(b, u);
        && requests == old(requests) + Scheduler.Launched(b, next)
        && if Scheduler.Finished(next) then batches == old(batches) - {handle} && !loading
           else batches == old(batches)[handle := next] && loading == old(loading)
      ensures outcome.Fetched? ==>
        && peopleList == Merge.ReplaceFirstOrAppend(old(peopleList), outcome.entity)
        && cachedPeople == PushIfAbsent(old(cachedPeople), outcome.entity)
        && error == old(error)
      ensures outcome.Failed? ==>
        && peopleList == old(peopleList) && cachedPeople == old(cachedPeople)
        && error == Some(Helper.FormatError(outcome.error))
      ensures people == old(people) && nextBatch == old(nextBatch)
      ensures openDetails == old(openDetails) && openLists == old(openLists)
    {
      match outcome {
        case Fetched(p) =>
          peopleList, cachedPeople := Merge.ReplaceFirstOrAppend(peopleList, p), PushIfAbsent(cachedPeople, p);
        case Failed(e) =>
          error := Some(Helper.FormatError(e));
      }
      AdvanceBatch(handle, u);
    }

    /** The bookkeeping part of a finished request: `u` leaves batch `handle`,
        the freed slot goes to the next queued url, and a batch with nothing
        left is dropped and resets `loading`. Nothing else changes. */
    method AdvanceBatch(handle: nat, u: Url)
      requires Valid() && handle in batches && u in batches[handle].inFlight
      modifies this
      ensures Valid()
      ensures var b := old(batches[handle]);
        var next := Scheduler.Complete(b, u);
        && requests == old(requests) + Scheduler.Launched(b, next)
        && if Scheduler.Finished(next) then batches == old(batches) - {handle} && !loading
           else batches == old(batches)[handle := next] && loading == old(loading)
      ensures peopleList == old(peopleList) && cachedPeople == old(cachedPeople) && error == old(error)
      ensures people == old(people) && nextBatch == old(nextBatch)
      ensures openDetails == old(openDetails) && openLists == old(openLists)
    {
      var b := batches[handle];
      Scheduler.CompleteSpec(b, u);
      var next := Scheduler.Complete(b, u);
      requests := requests + Scheduler.Launched(b, next);
      if Scheduler.Finished(next) {
        batches := batches - {handle};
        loading := false;
      } else {
        batches := batches[handle := next];
      }
    }
  }
}
