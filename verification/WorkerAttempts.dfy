/**
 * How often each row of the worker pool is tried, over a whole run: until the first valid detail, which is the one
 * saved, or until the attempts are used up (scripts/enrich_milvus_recipe_details.py).
 */
module WorkerAttempts {
  import opened DetailCache
  import opened WorkerPool

  /** The detail this event gives for row `r`, if it is an attempt at that row. */
  function Given(p: Pool, e: Event, r: nat): seq<Detail> {
    if e.Attempt? && e.worker < |p.workers| && p.workers[e.worker].Trying? && p.workers[e.worker].row == r
    then [e.detail]
    else []
  }

  /** The details that the attempts at row `r` gave in a run, in order. */
  function Tried(job: Job, p: Pool, events: seq<Event>, q: Pool, r: nat): seq<Detail>
    requires Runs(job, p, events, q)
    decreases |events|
  {
    if events == [] then []
    else Given(p, events[0], r) + Tried(job, Next(job, p, events[0]), events[1..], q, r)
  }

  predicate NoneValid(tried: seq<Detail>, md: Metadata) {
    forall d :: d in tried ==> !ValidFor(d, md)
  }

  /** Attempts up to the first valid detail, which is `detail`. */
  predicate ValidAtLast(tried: seq<Detail>, md: Metadata, detail: Detail) {
    tried != [] && tried[|tried| - 1] == detail && ValidFor(detail, md) && NoneValid(tried[..|tried| - 1], md)
  }

  /** How far row `r` has come with the attempts made at it. */
  predicate Standing(job: Job, p: Pool, w: Worker, r: nat, tried: seq<Detail>)
    requires r < |job.pending| && WorksOn(w, r)
  {
    match w
    case Trying(_, left) => |tried| + left == job.attempts && NoneValid(tried, job.pending[r])
    case Holding(_, detail) => |tried| <= job.attempts && ValidAtLast(tried, job.pending[r], detail)
    case Died(_) => |tried| < job.attempts && NoneValid(tried, job.pending[r])
  }

  predicate Settled(job: Job, p: Pool, r: nat, tried: seq<Detail>)
    requires r < |job.pending|
  {
    var key := Key(job, r);
    if key in p.reusable then |tried| <= job.attempts && ValidAtLast(tried, job.pending[r], p.reusable[key])
    else |tried| == job.attempts && NoneValid(tried, job.pending[r])
  }

  ghost predicate Progress(job: Job, p: Pool, r: nat, tried: seq<Detail>)
    requires r < |job.pending|
  {
    && (r >= p.taken ==> tried == [])
    && (forall i :: 0 <= i < |p.workers| && WorksOn(p.workers[i], r) ==> Standing(job, p, p.workers[i], r, tried))
    && (r < p.taken && !InWork(p.workers, r) ==> Settled(job, p, r, tried))
  }

  lemma TakeProgress(job: Job, p: Pool, i: nat, r: nat, tried: seq<Detail>)
    requires Inv(job, p) && Enabled(job, p, Take(i)) && r < |job.pending| && Progress(job, p, r, tried)
    ensures Progress(job, Next(job, p, Take(i)), r, tried)
  {
    var q := Next(job, p, Take(i));
    TakeKeepsQueue(job, p, i);
    ReplaceWorker(p.workers, i, q.workers[i]);
    assert RowOk(job, p, r);
    forall x | 0 <= x < |q.workers| && WorksOn(q.workers[x], r) ensures Standing(job, q, q.workers[x], r, tried) {
      assert x != i ==> q.workers[x] == p.workers[x];
    }
  }

  lemma MoreTried(tried: seq<Detail>, detail: Detail, md: Metadata)
    requires NoneValid(tried, md)
    ensures if ValidFor(detail, md) then ValidAtLast(tried + [detail], md, detail) else NoneValid(tried + [detail], md)
  {
    assert (tried + [detail])[..|tried|] == tried;
  }

  lemma AttemptProgress(job: Job, p: Pool, e: Event, r: nat, tried: seq<Detail>)
    requires Inv(job, p) && Enabled(job, p, e) && (e.Attempt? || e.Raise?)
    requires r < |job.pending| && Progress(job, p, r, tried)
    ensures Progress(job, Next(job, p, e), r, tried + Given(p, e, r))
  {
    var q, i := Next(job, p, e), e.worker;
    ReplaceWorker(p.workers, i, q.workers[i]);
    assert RowOk(job, p, r);
    if WorksOn(p.workers[i], r) {
      assert InWork(p.workers, r);
      if e.Attempt? { MoreTried(tried, e.detail, job.pending[r]); }
    } else {
      assert tried + Given(p, e, r) == tried;
    }
    forall x | 0 <= x < |q.workers| && WorksOn(q.workers[x], r)
      ensures Standing(job, q, q.workers[x], r, tried + Given(p, e, r))
    {
      assert x != i ==> q.workers[x] == p.workers[x];
    }
  }

  lemma FinishProgress(job: Job, p: Pool, e: Event, r: nat, tried: seq<Detail>)
    requires Inv(job, p) && Enabled(job, p, e) && (e.Save? || e.GiveUp?)
    requires r < |job.pending| && Progress(job, p, r, tried)
    ensures Progress(job, Next(job, p, e), r, tried)
  {
    var q, i, row := Next(job, p, e), e.worker, p.workers[e.worker].row;
    ReplaceWorker(p.workers, i, Idle);
    assert WorksOn(p.workers[i], row) && InWork(p.workers, row);
    assert RowOk(job, p, r) && RowOk(job, p, row);
    assert r != row ==> Key(job, r) != Key(job, row);
    forall x | 0 <= x < |q.workers| && WorksOn(q.workers[x], r) ensures Standing(job, q, q.workers[x], r, tried) {
      assert x != i ==> q.workers[x] == p.workers[x];
    }
  }

  lemma EventProgress(job: Job, p: Pool, e: Event, r: nat, tried: seq<Detail>)
    requires Inv(job, p) && Enabled(job, p, e) && r < |job.pending| && Progress(job, p, r, tried)
    ensures Progress(job, Next(job, p, e), r, tried + Given(p, e, r))
  {
    if e.Attempt? || e.Raise? {
      AttemptProgress(job, p, e, r, tried);
    } else {
      assert tried + Given(p, e, r) == tried;
      if e.Take? { TakeProgress(job, p, e.worker, r, tried); } else { FinishProgress(job, p, e, r, tried); }
    }
  }

  lemma FirstTried(job: Job, p: Pool, events: seq<Event>, q: Pool, r: nat, tried: seq<Detail>)
    requires Runs(job, p, events, q) && events != []
    ensures Enabled(job, p, events[0]) && Runs(job, Next(job, p, events[0]), events[1..], q)
    ensures tried + Tried(job, p, events, q, r)
         == tried + Given(p, events[0], r) + Tried(job, Next(job, p, events[0]), events[1..], q, r)
  {
    var rest := Tried(job, Next(job, p, events[0]), events[1..], q, r);
    assert tried + (Given(p, events[0], r) + rest) == tried + Given(p, events[0], r) + rest;
  }

  lemma {:induction false} RunProgress(job: Job, p: Pool, events: seq<Event>, q: Pool, r: nat, tried: seq<Detail>)
    requires Inv(job, p) && Runs(job, p, events, q) && r < |job.pending| && Progress(job, p, r, tried)
    ensures Progress(job, q, r, tried + Tried(job, p, events, q, r))
    decreases |events|
  {
    if events == [] {
      assert tried + [] == tried;
    } else {
      FirstTried(job, p, events, q, r, tried);
      EventProgress(job, p, events[0], r, tried);
      EveryEventKeepsInv(job, p, events[0]);
      RunProgress(job, Next(job, p, events[0]), events[1..], q, r, tried + Given(p, events[0], r));
    }
  }

  /** Before its attempts are used up, a row in work can be tried, whatever the call will give. */
  lemma TakenRowsCanBeTried(job: Job, p: Pool, i: nat, detail: Detail)
    requires JobOk(job) && Inv(job, p) && Enabled(job, p, Take(i)) && p.queue[0].Row? && job.attempts > 0
    ensures Enabled(job, Next(job, p, Take(i)), Attempt(i, detail))
    ensures !Enabled(job, Next(job, p, Take(i)), GiveUp(i))
  {
  }

  /**
   * In every interleaving a row is reported as failed only after all its attempts, none of which gave a detail valid
   * for it; and what is saved under its key is the first valid detail, within the attempts.
   */
  lemma RowsAreTried(job: Job, events: seq<Event>, p: Pool, r: nat)
    requires JobOk(job) && Runs(job, Start(job), events, p) && r < |job.pending|
    ensures var tried, key := Tried(job, Start(job), events, p, r), Key(job, r);
      && |tried| <= job.attempts
      && (key in p.failed ==> |tried| == job.attempts && NoneValid(tried, job.pending[r]))
      && (key in p.reusable ==> ValidAtLast(tried, job.pending[r], p.reusable[key]))
      && (r >= p.taken ==> tried == [])
  {
    var start := Start(job);
    StartKeepsInv(job);
    EveryRunKeepsInv(job, start, events, p);
    RunProgress(job, start, events, p, r, []);
    var tried := Tried(job, start, events, p, r);
    assert [] + tried == tried && RowOk(job, p, r);
    if InWork(p.workers, r) {
      var i :| 0 <= i < |p.workers| && WorksOn(p.workers[i], r);
      assert Standing(job, p, p.workers[i], r, tried);
    }
  }

  /** Once the pool is joined it is exactly so: a row failed if and only if all its attempts did. */
  lemma FailedIff(job: Job, events: seq<Event>, p: Pool, r: nat)
    requires JobOk(job) && job.concurrency >= 1 && Runs(job, Start(job), events, p) && p.unfinished == 0
    requires r < |job.pending|
    ensures var tried, key := Tried(job, Start(job), events, p, r), Key(job, r);
      && (key in p.failed <==> |tried| == job.attempts && NoneValid(tried, job.pending[r]))
      && (key in p.reusable <==> tried != [] && ValidFor(tried[|tried| - 1], job.pending[r]))
  {
    RowsAreTried(job, events, p, r);
    PoolIsSound(job, events, p);
    var tried := Tried(job, Start(job), events, p, r);
    if tried != [] { assert tried[|tried| - 1] in tried; }
  }
}
