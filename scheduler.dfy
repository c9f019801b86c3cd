/** The bounded fan-out a batch resolution runs: `from(queue).pipe(mergeMap(get,
    concurrency))`. The urls wait in a queue; at most `concurrency` requests are
    in flight; whenever one finishes, successfully or not, the next queued url is
    requested (a sliding window, not fixed rounds). The environment decides
    which in-flight request finishes next. */
module Scheduler {
  import opened Entities
  import opened Dedupe

  /** `queue[..started]` have been requested, `queue[started..]` wait in
      mergeMap's buffer, `inFlight` are requested and not yet finished. */
  datatype Batch = Batch(queue: seq<Url>, started: nat, inFlight: seq<Url>, concurrency: nat)

  predicate WellFormed(b: Batch) {
    b.started <= |b.queue| && |b.inFlight| <= b.concurrency
  }

  /** The scheduler's invariant: never more than `concurrency` in flight, each
      in-flight url requested and distinct, and no url left waiting while a slot
      is free. */
  predicate Valid(b: Batch) {
    && WellFormed(b)
    && NoDuplicates(b.queue)
    && NoDuplicates(b.inFlight)
    && (forall u :: u in b.inFlight ==> u in b.queue[..b.started])
    && (b.started < |b.queue| ==> |b.inFlight| == b.concurrency)
  }

  /** Every url requested and every request finished: `finalize` runs. */
  predicate Finished(b: Batch) {
    b.started == |b.queue| && b.inFlight == []
  }

  /** Requests still to be finished, counting the queued ones. */
  function Remaining(b: Batch): nat
    requires WellFormed(b)
  {
    |b.queue| - b.started + |b.inFlight|
  }

  function Min(x: nat, y: nat): nat { if x <= y then x else y }

  /** Request queued urls, in queue order, until the window is full or the
      queue is empty. */
  function Fill(b: Batch): (r: Batch)
    requires WellFormed(b)
    ensures WellFormed(r) && r.queue == b.queue && r.concurrency == b.concurrency
    ensures b.started <= r.started
  {
    var k := Min(|b.queue| - b.started, b.concurrency - |b.inFlight|);
    Batch(b.queue, b.started + k, b.inFlight + b.queue[b.started..b.started + k], b.concurrency)
  }

  /** The urls requested between two states of one batch. */
  function Launched(b: Batch, r: Batch): seq<Url>
    requires b.started <= r.started <= |r.queue|
  {
    r.queue[b.started..r.started]
  }

  /** `mergeMap` subscribing: the first window of requests. */
  function Start(queue: seq<Url>, concurrency: nat): Batch
  {
    Fill(Batch(queue, 0, [], concurrency))
  }

  function Without(s: seq<Url>, u: Url): (r: seq<Url>)
    ensures forall x :: x in r <==> x in s && x != u
    ensures NoDuplicates(s) ==> NoDuplicates(r)
    ensures NoDuplicates(s) && u in s ==> |r| == |s| - 1
    ensures |r| <= |s|
    ensures u !in s ==> r == s
  {
    if s == [] then []
    else
      assert forall x :: x in s <==> x == s[0] || x in s[1..] by { assert s == [s[0]] + s[1..]; }
      TailFacts(s);
      var rest := Without(s[1..], u);
      if s[0] == u then rest
      else
        ConsNoDuplicates(s, rest);
        [s[0]] + rest
  }

  /** Putting the head of a duplicate-free `s` before urls taken from its
      tail keeps the result duplicate-free. */
  lemma ConsNoDuplicates(s: seq<Url>, rest: seq<Url>)
    requires s != [] && (forall x :: x in rest ==> x in s[1..])
    requires NoDuplicates(s) ==> NoDuplicates(rest)
    ensures NoDuplicates(s) ==> NoDuplicates([s[0]] + rest)
  {
    if NoDuplicates(s) {
      var r := [s[0]] + rest;
      forall i, j | 0 <= i < j < |r| ensures r[i] != r[j] {
        if i == 0 {
          assert r[j] == rest[j - 1] && rest[j - 1] in rest;
          var m :| 0 <= m < |s[1..]| && s[1..][m] == r[j];
          assert s[m + 1] == r[j];
        } else {
          assert r[i] == rest[i - 1] && r[j] == rest[j - 1];
        }
      }
    }
  }

  /** The request for `u` finishes (whatever its outcome): its slot goes to the
      next queued url, if any. */
  function Complete(b: Batch, u: Url): Batch
    requires WellFormed(b) && u in b.inFlight
  {
    Fill(b.(inFlight := Without(b.inFlight, u)))
  }

  /** The first window is the first `concurrency` urls of the queue. */
  lemma StartSpec(queue: seq<Url>, concurrency: nat)
    requires NoDuplicates(queue)
    ensures var b := Start(queue, concurrency);
      && Valid(b)
      && b.queue == queue && b.concurrency == concurrency
      && b.started == Min(|queue|, concurrency)
      && b.inFlight == queue[..b.started]
      && Remaining(b) == |queue|
  {
  }

  /** A finished request frees one slot and at most one queued url is requested
      in its place, so the invariant (in particular `|inFlight| <= concurrency`)
      survives and one fewer request remains. */
  lemma CompleteSpec(b: Batch, u: Url)
    requires Valid(b) && u in b.inFlight
    ensures var r := Complete(b, u);
      && Valid(r)
      && r.queue == b.queue && r.concurrency == b.concurrency
      && u !in r.inFlight
      && b.started <= r.started <= b.started + 1
      && Remaining(r) == Remaining(b) - 1
      && (b.started < |b.queue| ==> Launched(b, r) == [b.queue[b.started]])
  {
    var r := Complete(b, u);
    var w := Without(b.inFlight, u);
    assert |w| == |b.inFlight| - 1;
    if b.started < |b.queue| {
      assert r.started == b.started + 1;
      assert r.inFlight == w + [b.queue[b.started]];
      assert b.queue[b.started] !in w by {
        assert b.queue[b.started] !in b.queue[..b.started];
      }
      forall x | x in r.inFlight ensures x in r.queue[..r.started] {
        if x in w { assert x in b.queue[..b.started]; }
      }
      assert NoDuplicates(r.inFlight) by {
        forall i, j | 0 <= i < j < |r.inFlight| ensures r.inFlight[i] != r.inFlight[j] {
          if j == |w| { assert r.inFlight[i] == w[i]; }
        }
      }
      assert r.queue == b.queue;
      assert Launched(b, r) == b.queue[b.started..b.started + 1];
    } else {
      assert r.started == b.started && r.inFlight == w;
    }
  }

  /** With at least one slot, an unfinished batch always has a request in
      flight: it cannot get stuck with urls waiting. */
  lemma NeverStuck(b: Batch)
    requires Valid(b) && b.concurrency >= 1 && !Finished(b)
    ensures |b.inFlight| >= 1
  {
  }

  /** With no slot at all nothing is ever requested and the batch never
      finishes. */
  lemma StalledWithoutSlots(queue: seq<Url>)
    requires queue != []
    ensures Start(queue, 0).inFlight == [] && !Finished(Start(queue, 0))
  {
  }

  /** Completions chosen by the environment: the k-th step finishes the
      in-flight request at position `picks[k] % |inFlight|`. */
  function Run(b: Batch, picks: seq<nat>): Batch
    requires Valid(b)
    decreases |picks|
  {
    if picks == [] || b.inFlight == [] then b
    else
      var u := b.inFlight[picks[0] % |b.inFlight|];
      CompleteSpec(b, u);
      Run(Complete(b, u), picks[1..])
  }

  /** The urls requested during `Run(b, picks)`, in request order. */
  function Issued(b: Batch, picks: seq<nat>): seq<Url>
    requires Valid(b)
    decreases |picks|
  {
    if picks == [] || b.inFlight == [] then []
    else
      var u := b.inFlight[picks[0] % |b.inFlight|];
      CompleteSpec(b, u);
      var r := Complete(b, u);
      Launched(b, r) + Issued(r, picks[1..])
  }

  /** Whatever order the requests finish in: the invariant holds at every step;
      the urls requested are exactly the next queued ones, in queue order; and
      once as many requests as remain have finished, the batch is finished. */
  lemma {:induction false} RunSpec(b: Batch, picks: seq<nat>)
    requires Valid(b)
    ensures var r := Run(b, picks);
      && Valid(r) && r.queue == b.queue && b.started <= r.started
      && Issued(b, picks) == b.queue[b.started..r.started]
      && (b.concurrency >= 1 && |picks| >= Remaining(b) ==> Finished(r))
    decreases |picks|
  {
    if picks != [] && b.inFlight != [] {
      var u := b.inFlight[picks[0] % |b.inFlight|];
      CompleteSpec(b, u);
      var c := Complete(b, u);
      RunSpec(c, picks[1..]);
      var r := Run(c, picks[1..]);
      assert Run(b, picks) == r;
      assert Issued(b, picks) == Launched(b, c) + Issued(c, picks[1..]);
      var q := b.queue;
      assert c.queue == q && b.started <= c.started <= r.started <= |q|;
      SliceSplit(q, b.started, c.started, r.started);
    }
  }

  lemma SliceSplit(q: seq<Url>, i: nat, j: nat, k: nat)
    requires i <= j <= k <= |q|
    ensures q[i..k] == q[i..j] + q[j..k]
  {
  }

  /** A batch whose in-flight requests are exactly the urls requested so far
      requests the rest of its queue, in order, and finishes, once as many
      requests as remain have finished. */
  lemma RunToEnd(b: Batch, picks: seq<nat>)
    requires Valid(b) && b.concurrency >= 1 && |picks| >= Remaining(b)
    requires b.inFlight == b.queue[..b.started]
    ensures b.inFlight + Issued(b, picks) == b.queue && Finished(Run(b, picks))
  {
    RunSpec(b, picks);
    var q, k := b.queue, b.started;
    assert Run(b, picks).started == |q|;
    assert Issued(b, picks) == q[k..];
    SliceSplit(q, 0, k, |q|);
    assert q[0..k] == q[..k] && q[k..|q|] == q[k..] && q[0..|q|] == q;
  }

  /** A whole batch: every url of the queue is requested exactly once, in queue
      order, and the batch finishes after as many completions as urls, whatever
      their order and whatever their outcomes. */
  lemma BatchRequestsEachUrlOnce(queue: seq<Url>, concurrency: nat, picks: seq<nat>)
    requires NoDuplicates(queue) && concurrency >= 1 && |picks| >= |queue|
    ensures var b := Start(queue, concurrency);
      && b.inFlight + Issued(b, picks) == queue
      && Finished(Run(b, picks))
  {
    StartSpec(queue, concurrency);
    RunToEnd(Start(queue, concurrency), picks);
  }
}
