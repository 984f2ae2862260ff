/**
 * The worker pool of `_generate` in scripts/enrich_milvus_recipe_details.py: rows and sentinels in a
 * FIFO queue, workers that interleave at every `await`, a log append under a lock.
 */
module WorkerPool {
  import opened Options
  import opened DetailCache

  datatype Item = Row(index: nat) | Sentinel

  /** Where a worker stands between two awaits; `left` is the number of attempts it may still make. */
  datatype Worker =
    | Idle
    | Trying(row: nat, left: nat)
    | Holding(row: nat, detail: Detail)  // has a valid detail, waits for the write lock
    | Died(row: nat)                     // a generation call raised; the row is never marked as done
    | Ended

  datatype Pool = Pool(
    queue: seq<Item>, workers: seq<Worker>, unfinished: nat, taken: nat,
    log: seq<Line>, reusable: map<string, Detail>, done: nat, failed: seq<string>)

  /** One job: the rows still to do, all rows' keys, the arguments, and the log as the job found it. */
  datatype Job = Job(pending: seq<Metadata>, keys: set<string>, concurrency: nat, attempts: nat, found: seq<Line>)

  function Keys(rows: seq<Metadata>): set<string> {
    set md | md in rows :: BusinessKey(md)
  }

  /** The rows of the list whose key has no reusable detail, in order. */
  function Missing(rows: seq<Metadata>, have: map<string, Detail>): seq<Metadata> {
    if rows == [] then []
    else (if BusinessKey(rows[0]) in have then [] else [rows[0]]) + Missing(rows[1..], have)
  }

  function JobOf(rows: seq<Metadata>, log: seq<Line>, concurrency: nat, attempts: nat): Job {
    Job(Missing(rows, Restrict(Replay(log), Keys(rows))), Keys(rows), concurrency, attempts, log)
  }

  function Rows(from: nat, n: nat): seq<Item>
    requires from <= n
    decreases n - from
  {
    if from == n then [] else [Row(from)] + Rows(from + 1, n)
  }

  function Sentinels(n: nat): (r: seq<Item>)
    ensures |r| == n && forall i :: 0 <= i < n ==> r[i] == Sentinel
  {
    seq(n, i => Sentinel)
  }

  function Start(job: Job): Pool {
    Pool(Rows(0, |job.pending|) + Sentinels(job.concurrency),
         seq(if job.concurrency == 0 then 1 else job.concurrency, i => Idle),
         |job.pending| + job.concurrency, 0,
         job.found, Restrict(Replay(job.found), job.keys), 0, [])
  }

  datatype Event =
    | Take(worker: nat)
    | Attempt(worker: nat, detail: Detail)
    | Raise(worker: nat)
    | Save(worker: nat)
    | GiveUp(worker: nat)

  predicate Enabled(job: Job, p: Pool, e: Event) {
    && e.worker < |p.workers|
    && var w := p.workers[e.worker];
       match e
       case Take(_) => w.Idle? && p.queue != []
       case Attempt(_, _) => w.Trying? && w.left > 0
       case Raise(_) => w.Trying? && w.left > 0
       case Save(_) => w.Holding? && w.row < |job.pending|
       case GiveUp(_) => w.Trying? && w.left == 0 && w.row < |job.pending|
  }

  function SetWorker(p: Pool, i: nat, w: Worker): Pool
    requires i < |p.workers|
  {
    p.(workers := p.workers[i := w])
  }

  function Next(job: Job, p: Pool, e: Event): Pool
    requires Enabled(job, p, e)
  {
    match e
    case Take(i) =>
      var rest := p.(queue := p.queue[1..]);
      (match p.queue[0]
       case Row(index) => SetWorker(rest.(taken := p.taken + 1), i, Trying(index, job.attempts))
       case Sentinel => SetWorker(rest.(unfinished := if p.unfinished > 0 then p.unfinished - 1 else 0), i, Ended))
    case Attempt(i, detail) =>
      var row := p.workers[i].row;
      if row < |job.pending| && ValidFor(detail, job.pending[row]) then SetWorker(p, i, Holding(row, detail))
      else SetWorker(p, i, Trying(row, p.workers[i].left - 1))
    case Raise(i) => SetWorker(p, i, Died(p.workers[i].row))
    case Save(i) =>
      var key, detail := BusinessKey(job.pending[p.workers[i].row]), p.workers[i].detail;
      SetWorker(p.(log := p.log + [Entry(key, Some(detail))], reusable := p.reusable[key := detail],
                   done := p.done + 1, unfinished := if p.unfinished > 0 then p.unfinished - 1 else 0),
                i, Idle)
    case GiveUp(i) =>
      SetWorker(p.(failed := p.failed + [BusinessKey(job.pending[p.workers[i].row])],
                   unfinished := if p.unfinished > 0 then p.unfinished - 1 else 0),
                i, Idle)
  }

  /** A history: every event is enabled where it happens. */
  predicate Runs(job: Job, p: Pool, events: seq<Event>, q: Pool)
    decreases |events|
  {
    if events == [] then p == q
    else Enabled(job, p, events[0]) && Runs(job, Next(job, p, events[0]), events[1..], q)
  }

  // ---- counting workers ----

  function Total(ws: seq<Worker>, f: Worker -> nat): nat {
    if ws == [] then 0 else f(ws[0]) + Total(ws[1..], f)
  }

  lemma {:induction false} TotalUpdate(ws: seq<Worker>, f: Worker -> nat, i: nat, w: Worker)
    requires i < |ws|
    ensures Total(ws[i := w], f) + f(ws[i]) == Total(ws, f) + f(w)
  {
    if i == 0 {
      assert ws[0 := w][1..] == ws[1..];
    } else {
      assert ws[i := w][1..] == ws[1..][i - 1 := w];
      TotalUpdate(ws[1..], f, i - 1, w);
    }
  }

  lemma {:induction false} TotalZero(ws: seq<Worker>, f: Worker -> nat)
    ensures Total(ws, f) == 0 <==> forall w :: w in ws ==> f(w) == 0
  {
    if ws != [] {
      TotalZero(ws[1..], f);
      assert ws == [ws[0]] + ws[1..];
    }
  }

  lemma {:induction false} TotalOfIdle(n: nat, f: Worker -> nat)
    ensures Total(seq(n, i => Idle), f) == n * f(Idle)
  {
    if n > 0 {
      assert seq(n, i => Idle)[1..] == seq(n - 1, i => Idle);
      TotalOfIdle(n - 1, f);
    }
  }

  function Unended(w: Worker): nat {
    if w.Ended? then 0 else 1
  }

  function Busy(w: Worker): nat {
    if w.Trying? || w.Holding? || w.Died? then 1 else 0
  }

  function Effort(w: Worker): nat {
    match w
    case Ended => 0
    case Died(_) => 0
    case Idle => 1
    case Holding(_, _) => 2
    case Trying(_, left) => left + 3
  }

  // ---- the invariant ----

  predicate WorksOn(w: Worker, row: nat) {
    (w.Trying? || w.Holding? || w.Died?) && w.row == row
  }

  predicate InWork(ws: seq<Worker>, row: nat) {
    exists i :: 0 <= i < |ws| && WorksOn(ws[i], row)
  }

  /** No two workers on the same row. */
  ghost predicate Apart(ws: seq<Worker>) {
    forall i, j, r: nat {:trigger WorksOn(ws[i], r), WorksOn(ws[j], r)} ::
      0 <= i < j < |ws| ==> !(WorksOn(ws[i], r) && WorksOn(ws[j], r))
  }

  /** The queue is the rows not yet taken, then the sentinels not yet taken; sentinels go only after all rows. */
  predicate QueueShape(job: Job, p: Pool, left: nat) {
    && p.taken <= |job.pending| && left <= job.concurrency
    && p.queue == Rows(p.taken, |job.pending|) + Sentinels(left)
    && (left < job.concurrency ==> p.taken == |job.pending|)
    && Total(p.workers, Unended) == left + if job.concurrency == 0 then 1 else 0
  }

  ghost predicate QueueOk(job: Job, p: Pool) {
    exists left: nat :: QueueShape(job, p, left)
  }

  predicate CountsOk(p: Pool) {
    && p.unfinished == |p.queue| + Total(p.workers, Busy)
    && p.taken == p.done + |p.failed| + Total(p.workers, Busy)
  }

  predicate WorkerOk(job: Job, w: Worker) {
    w.Holding? ==> w.row < |job.pending| && ValidFor(w.detail, job.pending[w.row])
  }

  ghost predicate WorkersOk(job: Job, p: Pool) {
    && |p.workers| == (if job.concurrency == 0 then 1 else job.concurrency)
    && Apart(p.workers)
    && forall w :: w in p.workers ==> WorkerOk(job, w)
  }

  function Key(job: Job, r: nat): string
    requires r < |job.pending|
  {
    BusinessKey(job.pending[r])
  }

  /** A row is in exactly one place: waiting, in work, saved, or reported as failed. */
  predicate RowOk(job: Job, p: Pool, r: nat)
    requires r < |job.pending|
  {
    var key := Key(job, r);
    if r >= p.taken then !InWork(p.workers, r) && key !in p.reusable && key !in p.failed
    else if InWork(p.workers, r) then key !in p.reusable && key !in p.failed
    else if key in p.reusable then key !in p.failed
    else key in p.failed
  }

  ghost predicate RowsOk(job: Job, p: Pool) {
    && (forall r :: 0 <= r < |job.pending| ==> RowOk(job, p, r))
    && (forall r: nat :: InWork(p.workers, r) ==> r < p.taken)
  }

  predicate JobOk(job: Job) {
    && (forall md :: md in job.pending ==>
          BusinessKey(md) != "" && BusinessKey(md) in job.keys
          && BusinessKey(md) !in Restrict(Replay(job.found), job.keys))
    && (forall r, s :: 0 <= r < s < |job.pending| ==> Key(job, r) != Key(job, s))
  }

  ghost predicate Inv(job: Job, p: Pool) {
    && JobOk(job) && QueueOk(job, p) && CountsOk(p) && WorkersOk(job, p) && RowsOk(job, p)
    && p.reusable == Restrict(Replay(p.log), job.keys)
    && job.found <= p.log && (OtherJson in p.log ==> OtherJson in job.found)
    && forall key :: key in Start(job).reusable ==> key in p.reusable && p.reusable[key] == Start(job).reusable[key]
  }

  lemma {:induction false} RowsShape(from: nat, n: nat)
    requires from <= n
    ensures |Rows(from, n)| == n - from
    ensures from < n ==> Rows(from, n)[0] == Row(from) && Rows(from, n)[1..] == Rows(from + 1, n)
    decreases n - from
  {
    if from < n {
      RowsShape(from + 1, n);
    }
  }

  lemma StartKeepsInv(job: Job)
    requires JobOk(job)
    ensures Inv(job, Start(job))
  {
    var p := Start(job);
    RowsShape(0, |job.pending|);
    TotalOfIdle(|p.workers|, Unended);
    TotalOfIdle(|p.workers|, Busy);
    assert QueueShape(job, p, job.concurrency);
    forall r | 0 <= r < |job.pending| ensures RowOk(job, p, r) {
      assert job.pending[r] in job.pending;
    }
  }

  /** What replacing one worker does to the rows in work. */
  lemma ReplaceWorker(ws: seq<Worker>, i: nat, w: Worker)
    requires i < |ws| && Apart(ws)
    ensures forall r: nat :: InWork(ws[i := w], r) ==> WorksOn(w, r) || InWork(ws, r)
    ensures forall r: nat :: WorksOn(w, r) ==> InWork(ws[i := w], r)
    ensures forall r: nat :: InWork(ws, r) && !WorksOn(ws[i], r) ==> InWork(ws[i := w], r)
    ensures forall r: nat :: WorksOn(ws[i], r) && !WorksOn(w, r) ==> !InWork(ws[i := w], r)
  {
    var vs := ws[i := w];
    forall r: nat | InWork(vs, r) ensures WorksOn(w, r) || InWork(ws, r) {
      var x :| 0 <= x < |vs| && WorksOn(vs[x], r);
      assert x == i || vs[x] == ws[x];
    }
    forall r: nat | WorksOn(w, r) ensures InWork(vs, r) {
      assert WorksOn(vs[i], r);
    }
    forall r: nat | InWork(ws, r) && !WorksOn(ws[i], r) ensures InWork(vs, r) {
      var x :| 0 <= x < |ws| && WorksOn(ws[x], r);
      assert WorksOn(vs[x], r);
    }
    forall r: nat, x | WorksOn(ws[i], r) && !WorksOn(w, r) && 0 <= x < |vs| ensures !WorksOn(vs[x], r) {
      if x != i {
        assert vs[x] == ws[x];
      }
    }
  }

  lemma StillApart(ws: seq<Worker>, i: nat, w: Worker)
    requires i < |ws| && Apart(ws)
    requires forall r: nat :: WorksOn(w, r) ==> WorksOn(ws[i], r) || !InWork(ws, r)
    ensures Apart(ws[i := w])
  {
    var vs := ws[i := w];
    forall x, y, r: nat | 0 <= x < y < |vs| ensures !(WorksOn(vs[x], r) && WorksOn(vs[y], r)) {
      if x == i {
        assert vs[y] == ws[y];
      } else if y == i {
        assert vs[x] == ws[x];
      }
    }
  }

  lemma TakeKeepsQueue(job: Job, p: Pool, i: nat)
    requires Inv(job, p) && Enabled(job, p, Take(i))
    ensures var q := Next(job, p, Take(i));
            QueueOk(job, q) && CountsOk(q)
    ensures match p.queue[0]
            case Row(index) => index == p.taken < |job.pending|
            case Sentinel => p.taken == |job.pending|
  {
    var q := Next(job, p, Take(i));
    var left: nat :| QueueShape(job, p, left);
    RowsShape(p.taken, |job.pending|);
    TotalUpdate(p.workers, Unended, i, q.workers[i]);
    TotalUpdate(p.workers, Busy, i, q.workers[i]);
    if p.taken < |job.pending| {
      assert q.queue == Rows(q.taken, |job.pending|) + Sentinels(left);
      assert QueueShape(job, q, left);
    } else {
      assert p.queue[0] == Sentinels(left)[0];
      assert q.queue == Rows(q.taken, |job.pending|) + Sentinels(left - 1);
      assert QueueShape(job, q, left - 1);
    }
  }

  lemma TakeKeepsInv(job: Job, p: Pool, i: nat)
    requires Inv(job, p) && Enabled(job, p, Take(i))
    ensures Inv(job, Next(job, p, Take(i)))
  {
    var q := Next(job, p, Take(i));
    TakeKeepsQueue(job, p, i);
    ReplaceWorker(p.workers, i, q.workers[i]);
    StillApart(p.workers, i, q.workers[i]);
    forall r | 0 <= r < |job.pending| ensures RowOk(job, q, r) {
      assert RowOk(job, p, r);
      assert !WorksOn(p.workers[i], r);
    }
    forall r: nat | InWork(q.workers, r) ensures r < q.taken {
      assert WorksOn(q.workers[i], r) || InWork(p.workers, r);
    }
  }

  lemma OtherKeepsCounts(job: Job, p: Pool, e: Event)
    requires CountsOk(p) && Enabled(job, p, e) && !e.Take?
    ensures CountsOk(Next(job, p, e))
  {
    TotalUpdate(p.workers, Busy, e.worker, Next(job, p, e).workers[e.worker]);
  }

  lemma OtherKeepsQueue(job: Job, p: Pool, e: Event)
    requires Inv(job, p) && Enabled(job, p, e) && !e.Take?
    ensures var q := Next(job, p, e);
            QueueOk(job, q) && CountsOk(q)
  {
    var q := Next(job, p, e);
    var left: nat :| QueueShape(job, p, left);
    TotalUpdate(p.workers, Unended, e.worker, q.workers[e.worker]);
    assert QueueShape(job, q, left);
    OtherKeepsCounts(job, p, e);
  }

  lemma AttemptKeepsInv(job: Job, p: Pool, e: Event)
    requires Inv(job, p) && Enabled(job, p, e) && (e.Attempt? || e.Raise?)
    ensures Inv(job, Next(job, p, e))
  {
    var i, q := e.worker, Next(job, p, e);
    OtherKeepsQueue(job, p, e);
    ReplaceWorker(p.workers, i, q.workers[i]);
    StillApart(p.workers, i, q.workers[i]);
    forall r: nat ensures InWork(q.workers, r) <==> InWork(p.workers, r) {
    }
    forall r | 0 <= r < |job.pending| ensures RowOk(job, q, r) {
      assert RowOk(job, p, r);
    }
  }

  lemma FinishKeepsInv(job: Job, p: Pool, e: Event)
    requires Inv(job, p) && Enabled(job, p, e) && (e.Save? || e.GiveUp?)
    ensures Inv(job, Next(job, p, e))
  {
    var i := e.worker;
    var q := Next(job, p, e);
    var row := p.workers[i].row;
    OtherKeepsQueue(job, p, e);
    ReplaceWorker(p.workers, i, Idle);
    StillApart(p.workers, i, Idle);
    assert WorksOn(p.workers[i], row) && p.workers[i] in p.workers;
    assert job.pending[row] in job.pending;
    if e.Save? {
      ReplayAppend(p.log, Entry(Key(job, row), Some(p.workers[i].detail)), job.keys);
    }
    forall r | 0 <= r < |job.pending| ensures RowOk(job, q, r) {
      assert RowOk(job, p, r);
      assert r != row ==> Key(job, r) != Key(job, row);
      assert InWork(q.workers, r) <==> r != row && InWork(p.workers, r);
    }
    forall r: nat | InWork(q.workers, r) ensures r < q.taken {
      assert InWork(p.workers, r);
    }
  }

  lemma EveryEventKeepsInv(job: Job, p: Pool, e: Event)
    requires Inv(job, p) && Enabled(job, p, e)
    ensures Inv(job, Next(job, p, e))
  {
    match e
    case Take(i) => TakeKeepsInv(job, p, i);
    case Attempt(_, _) => AttemptKeepsInv(job, p, e);
    case Raise(_) => AttemptKeepsInv(job, p, e);
    case Save(_) => FinishKeepsInv(job, p, e);
    case GiveUp(_) => FinishKeepsInv(job, p, e);
  }

  lemma {:induction false} EveryRunKeepsInv(job: Job, p: Pool, events: seq<Event>, q: Pool)
    requires Inv(job, p) && Runs(job, p, events, q)
    ensures Inv(job, q)
    decreases |events|
  {
    if events != [] {
      EveryEventKeepsInv(job, p, events[0]);
      EveryRunKeepsInv(job, Next(job, p, events[0]), events[1..], q);
    }
  }

  // ---- the jobs the script starts ----

  predicate DistinctKeys(rows: seq<Metadata>) {
    && (forall md :: md in rows ==> BusinessKey(md) != "")
    && (forall r, s :: 0 <= r < s < |rows| ==> BusinessKey(rows[r]) != BusinessKey(rows[s]))
  }

  lemma {:induction false} MissingExactly(rows: seq<Metadata>, have: map<string, Detail>)
    requires DistinctKeys(rows)
    ensures DistinctKeys(Missing(rows, have))
    ensures forall md :: md in Missing(rows, have) <==> md in rows && BusinessKey(md) !in have
  {
    if rows != [] {
      var rest := rows[1..];
      assert rows == [rows[0]] + rest;
      assert DistinctKeys(rest);
      MissingExactly(rest, have);
      var tail := Missing(rest, have);
      forall md | md in tail ensures BusinessKey(md) != BusinessKey(rows[0]) {
        var k :| 0 <= k < |rest| && rest[k] == md;
        assert rows[k + 1] == md;
      }
    }
  }

  /** Cached and pending keys split the selected keys, whatever the log holds. */
  lemma JobsAreOk(rows: seq<Metadata>, log: seq<Line>, concurrency: nat, attempts: nat)
    requires DistinctKeys(rows)
    ensures var job := JobOf(rows, log, concurrency, attempts);
            && JobOk(job)
            && Keys(job.pending) !! Start(job).reusable.Keys
            && Keys(job.pending) + Start(job).reusable.Keys == Keys(rows)
  {
    var job := JobOf(rows, log, concurrency, attempts);
    MissingExactly(rows, Restrict(Replay(log), Keys(rows)));
  }

  // ---- what follows for every interleaving ----

  lemma {:induction false} SumOfParts(ws: seq<Worker>)
    ensures Total(ws, Busy) <= Total(ws, Unended)
    ensures Total(ws, Unended) == 0 <==> forall w :: w in ws ==> w.Ended?
  {
    TotalZero(ws, Unended);
    if ws != [] {
      SumOfParts(ws[1..]);
    }
  }

  /**
   * Every interleaving. Rows are taken once and in order, each is in exactly one of: waiting, in work, saved,
   * failed; a worker ends only after every row was taken; the job is joined exactly when all
   * workers have ended, and then every pending row is saved or failed, never both.
   */
  lemma PoolIsSound(job: Job, events: seq<Event>, p: Pool)
    requires JobOk(job) && job.concurrency >= 1 && Runs(job, Start(job), events, p)
    ensures forall r :: 0 <= r < |job.pending| ==> RowOk(job, p, r)
    ensures (exists w :: w in p.workers && w.Ended?) ==> p.taken == |job.pending|
    ensures p.unfinished == 0 <==> forall w :: w in p.workers ==> w.Ended?
    ensures p.unfinished == 0 ==>
              && p.done + |p.failed| == |job.pending|
              && forall r :: 0 <= r < |job.pending| ==> (Key(job, r) in p.reusable <==> Key(job, r) !in p.failed)
  {
    StartKeepsInv(job);
    EveryRunKeepsInv(job, Start(job), events, p);
    var left: nat :| QueueShape(job, p, left);
    RowsShape(p.taken, |job.pending|);
    SumOfParts(p.workers);
    if w :| w in p.workers && w.Ended? {
      var i :| 0 <= i < |p.workers| && p.workers[i] == w;
      TotalUpdate(p.workers, Unended, i, Idle);
      AllAtMost(p.workers[i := Idle]);
      assert left < job.concurrency;
    }
    if p.unfinished == 0 {
      TotalZero(p.workers, Busy);
      forall r | 0 <= r < |job.pending| ensures Key(job, r) in p.reusable <==> Key(job, r) !in p.failed {
        assert RowOk(job, p, r);
        forall i | 0 <= i < |p.workers| ensures !WorksOn(p.workers[i], r) {
          assert p.workers[i] in p.workers;
        }
      }
    }
  }

  lemma {:induction false} AllAtMost(ws: seq<Worker>)
    ensures Total(ws, Unended) <= |ws|
  {
    if ws != [] {
      AllAtMost(ws[1..]);
    }
  }

  // ---- termination ----

  /** What is left to do; every event lowers it. */
  function Measure(job: Job, p: Pool): nat {
    |p.queue| * (job.attempts + 3) + Total(p.workers, Effort)
  }

  lemma EveryEventMakesProgress(job: Job, p: Pool, e: Event)
    requires Enabled(job, p, e)
    ensures Measure(job, Next(job, p, e)) < Measure(job, p)
  {
    var q := Next(job, p, e);
    EffortFalls(job, p, e);
    TotalUpdate(p.workers, Effort, e.worker, q.workers[e.worker]);
    if e.Take? {
      var k := job.attempts + 3;
      assert |p.queue| * k == |q.queue| * k + k;
    }
  }

  /** Taking costs one item of the queue, anything else lowers the effort of its worker. */
  lemma EffortFalls(job: Job, p: Pool, e: Event)
    requires Enabled(job, p, e)
    ensures var q, i := Next(job, p, e), e.worker;
            && q.workers == p.workers[i := q.workers[i]]
            && (if e.Take? then
                  |q.queue| == |p.queue| - 1 && Effort(q.workers[i]) < Effort(p.workers[i]) + job.attempts + 3
                else
                  q.queue == p.queue && Effort(q.workers[i]) < Effort(p.workers[i]))
  {
  }

  /** No interleaving is longer than the measure of the start. */
  lemma {:induction false} RunsAreBounded(job: Job, p: Pool, events: seq<Event>, q: Pool)
    requires Runs(job, p, events, q)
    ensures |events| + Measure(job, q) <= Measure(job, p)
    decreases |events|
  {
    if events != [] {
      EveryEventMakesProgress(job, p, events[0]);
      RunsAreBounded(job, Next(job, p, events[0]), events[1..], q);
    }
  }

  predicate Halted(job: Job, p: Pool) {
    forall w :: w in p.workers ==>
      w.Ended? || w.Died? || (w.Idle? && p.queue == [])
  }

  /** A pool that has not halted can go on, whatever the calls return. */
  lemma HaltedMeansStuck(job: Job, p: Pool, detail: Detail)
    requires Inv(job, p)
    ensures Halted(job, p) <==> forall i: nat :: i < |p.workers| ==>
                !Enabled(job, p, Take(i)) && !Enabled(job, p, Attempt(i, detail)) && !Enabled(job, p, Raise(i))
                && !Enabled(job, p, Save(i)) && !Enabled(job, p, GiveUp(i))
  {
    forall i | 0 <= i < |p.workers|
      ensures var w := p.workers[i];
              (w.Ended? || w.Died? || (w.Idle? && p.queue == []))
              <==> !Enabled(job, p, Take(i)) && !Enabled(job, p, Attempt(i, detail)) && !Enabled(job, p, Raise(i))
                   && !Enabled(job, p, Save(i)) && !Enabled(job, p, GiveUp(i))
    {
      var w := p.workers[i];
      if w.Trying? || w.Holding? {
        assert WorksOn(w, w.row);
        assert InWork(p.workers, w.row);
      }
    }
    forall i | 0 <= i < |p.workers| ensures p.workers[i] in p.workers {
    }
  }

  predicate SomeoneDied(p: Pool) {
    exists w :: w in p.workers && w.Died?
  }

  predicate SomethingRaised(events: seq<Event>) {
    exists e :: e in events && e.Raise?
  }

  lemma OneStepDies(job: Job, p: Pool, e: Event)
    requires Enabled(job, p, e)
    ensures SomeoneDied(Next(job, p, e)) <==> SomeoneDied(p) || e.Raise?
  {
    var q, i := Next(job, p, e), e.worker;
    if w :| w in q.workers && w.Died? {
      var x :| 0 <= x < |q.workers| && q.workers[x] == w;
      assert x != i ==> p.workers[x] in p.workers;
    }
    if w :| w in p.workers && w.Died? {
      var x :| 0 <= x < |p.workers| && p.workers[x] == w;
      assert q.workers[x] == w && q.workers[x] in q.workers;
    }
    if e.Raise? {
      assert q.workers[i] in q.workers;
    }
  }

  lemma {:induction false} DeadIffRaised(job: Job, p: Pool, events: seq<Event>, q: Pool)
    requires Runs(job, p, events, q)
    ensures SomeoneDied(q) <==> SomeoneDied(p) || SomethingRaised(events)
    decreases |events|
  {
    if events != [] {
      OneStepDies(job, p, events[0]);
      DeadIffRaised(job, Next(job, p, events[0]), events[1..], q);
      assert events == [events[0]] + events[1..];
      assert forall e :: e in events <==> e == events[0] || e in events[1..];
    }
  }

  /**
   * A pool that can do nothing more has ended all its workers, and so is joined, if and only if it was given a
   * sentinel for each and no generation call raised. With `concurrency` 0 one worker is started and
   * waits for ever; a worker that dies never gives its row back, and the join waits for ever.
   */
  lemma HaltedPoolsHaveEnded(job: Job, events: seq<Event>, p: Pool)
    requires JobOk(job) && Runs(job, Start(job), events, p) && Halted(job, p)
    ensures (forall w :: w in p.workers ==> w.Ended?) <==> job.concurrency >= 1 && !SomethingRaised(events)
    ensures job.concurrency >= 1 ==> (p.unfinished == 0 <==> !SomethingRaised(events))
  {
    StartKeepsInv(job);
    EveryRunKeepsInv(job, Start(job), events, p);
    DeadIffRaised(job, Start(job), events, p);
    var left: nat :| QueueShape(job, p, left);
    RowsShape(p.taken, |job.pending|);
    SumOfParts(p.workers);
    if job.concurrency >= 1 { PoolIsSound(job, events, p); }
    if w :| w in p.workers && !w.Ended? && !w.Died? {
      assert p.queue == [];
      assert left == 0;
    }
  }

  // ---- stopping and starting again ----

  /**
   * Resume. Stop a job anywhere and start it again on its own log: the new job reuses exactly what the old one
   * had in memory, keeps every detail cached before, and has pending exactly the rows without one. Reading the
   * log does not raise if it did not before.
   */
  lemma RestartAgreesWithMemory(rows: seq<Metadata>, log: seq<Line>, concurrency: nat, attempts: nat,
                                events: seq<Event>, p: Pool, concurrency': nat, attempts': nat)
    requires DistinctKeys(rows)
    requires var job := JobOf(rows, log, concurrency, attempts); Runs(job, Start(job), events, p)
    ensures var again := JobOf(rows, p.log, concurrency', attempts');
            && Start(again).reusable == p.reusable
            && (forall md :: md in again.pending <==> md in rows && BusinessKey(md) !in p.reusable)
    ensures log <= p.log && (OtherJson in p.log ==> OtherJson in log)
    ensures forall key :: key in Restrict(Replay(log), Keys(rows)) ==>
              key in p.reusable && p.reusable[key] == Replay(log)[key]
  {
    var job := JobOf(rows, log, concurrency, attempts);
    JobsAreOk(rows, log, concurrency, attempts);
    StartKeepsInv(job);
    EveryRunKeepsInv(job, Start(job), events, p);
    MissingExactly(rows, p.reusable);
  }

  lemma {:induction false} NothingMissing(rows: seq<Metadata>, have: map<string, Detail>)
    requires forall md :: md in rows ==> BusinessKey(md) in have
    ensures Missing(rows, have) == []
  {
    if rows != [] {
      NothingMissing(rows[1..], have);
    }
  }

  lemma CompleteRunsHaveAll(job: Job, events: seq<Event>, p: Pool, md: Metadata)
    requires JobOk(job) && job.concurrency >= 1 && Runs(job, Start(job), events, p)
    requires p.unfinished == 0 && p.failed == []
    requires md in job.pending || BusinessKey(md) in Start(job).reusable
    ensures BusinessKey(md) in p.reusable
  {
    PoolIsSound(job, events, p);
    StartKeepsInv(job);
    EveryRunKeepsInv(job, Start(job), events, p);
    if md in job.pending {
      var r :| 0 <= r < |job.pending| && job.pending[r] == md;
      assert Key(job, r) in p.reusable;
    }
  }

  /** After a complete run without failures nothing is pending any more. */
  lemma CompleteRunsLeaveNothing(rows: seq<Metadata>, log: seq<Line>, concurrency: nat, attempts: nat,
                                 events: seq<Event>, p: Pool)
    requires DistinctKeys(rows) && concurrency >= 1
    requires var job := JobOf(rows, log, concurrency, attempts); Runs(job, Start(job), events, p)
    requires p.unfinished == 0 && p.failed == []
    ensures p.reusable.Keys == Keys(rows)
    ensures JobOf(rows, p.log, concurrency, attempts).pending == []
  {
    var job := JobOf(rows, log, concurrency, attempts);
    JobsAreOk(rows, log, concurrency, attempts);
    RestartAgreesWithMemory(rows, log, concurrency, attempts, events, p, concurrency, attempts);
    MissingExactly(rows, Restrict(Replay(log), Keys(rows)));
    forall md | md in rows ensures BusinessKey(md) in p.reusable {
      CompleteRunsHaveAll(job, events, p, md);
    }
    NothingMissing(rows, p.reusable);
  }
}
