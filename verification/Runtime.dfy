/**
 * The worker runtime (packages/queue/src/runtime.ts) and the handler registry
 * (packages/queue/src/envelope.ts): each pass of a worker is a run of the machine of
 * module Workers, so what holds of every run holds of whatever workers do.
 */
module Runtime {
  import opened Basics
  import opened Queue
  import opened Workers

  /** What a handler returns; Thrown is an exception other than an unknown job type. */
  datatype Outcome = Succeeded | Retryable | Permanent | Thrown

  type Handler = (Job, nat) -> Outcome

  class JobRegistry {
    var handlers: map<(string, nat), Handler>

    constructor ()
      ensures handlers == map[]
    {
      handlers := map[];
    }

    /** Refuses a second handler for the same type and version. */
    method Register(jobType: string, version: nat, handler: Handler) returns (ok: bool)
      modifies this
      ensures ok <==> (jobType, version) !in old(handlers)
      ensures handlers == if ok then old(handlers)[(jobType, version) := handler] else old(handlers)
    {
      ok := (jobType, version) !in handlers;
      if ok { handlers := handlers[(jobType, version) := handler]; }
    }
  }

  datatype RetryLimits = RetryLimits(maxAttempts: int, base: nat, cap: nat)

  const RETRY_DEFAULTS: map<string, int> := map[
    "webhook-processing" := 8, "workflow-execution" := 10, "sandbox-monitoring" := 6,
    "approval-resume" := 12, "outbox-publishing" := 15, "cleanup" := 3]

  function DefaultAttempts(queue: string): int {
    if queue == "webhook-processing" then 8
    else if queue == "workflow-execution" then 10
    else if queue == "sandbox-monitoring" then 6
    else if queue == "approval-resume" then 12
    else if queue == "outbox-publishing" then 15
    else if queue == "cleanup" then 3
    else 8
  }

  function LimitsFor(overrides: map<string, RetryLimits>, queue: string): RetryLimits {
    if queue in overrides then overrides[queue] else RetryLimits(DefaultAttempts(queue), 1, 60)
  }

  /** What becomes of a claimed job: a cancelled one and one without a handler fail for good, unseen. */
  function Judge(handlers: map<(string, nat), Handler>, current: map<string, nat>, job: Job, attempt: nat): Outcome {
    if FencedOff(current, job) then Permanent
    else if (job.jobType, job.version) !in handlers then Permanent
    else handlers[(job.jobType, job.version)](job, attempt)
  }

  /** The steps of one execution; at is when a retry becomes due. */
  function Steps(outcome: Outcome, attempts: nat, maxAttempts: int, id: nat, at: int): seq<Step> {
    match outcome
    case Succeeded => [Succeed(id)]
    case Permanent => [Fail(id)]
    case Thrown => [Crash(id)]
    case Retryable =>
      [Retry(id, maxAttempts)] + if attempts >= maxAttempts then [] else [Requeue(id, at)]
  }

  lemma RunOn(run: seq<Step>, step: Step)
    ensures AfterRun(run + [step]) == Next(AfterRun(run), step)
  {
    assert (run + [step])[..|run|] == run;
  }

  /** The operations of one execution. */
  function JobOps(outcome: Outcome, attempts: nat, maxAttempts: int, job: Job, worker: string, at: int): seq<Op> {
    match outcome
    case Succeeded => [Complete(job.key, worker)]
    case Permanent => [Bury(job.key)]
    case Thrown => []
    case Retryable =>
      if attempts >= maxAttempts then [Bury(job.key)] else [Complete(job.key, worker), Enqueue(job, at)]
  }

  /** Running the steps of an execution performs its operations, and ends it. */
  lemma StepsPerform(run: seq<Step>, outcome: Outcome, maxAttempts: int, id: nat, at: int)
    requires IsRunning(AfterRun(run), id)
    ensures var sys := AfterRun(run); var e := sys.execs[id];
            var attempts := AttemptsOf(After(sys.ops), e.job.key);
            AfterRun(run + Steps(outcome, attempts, maxAttempts, id, at)) ==
            Sys(sys.ops + JobOps(outcome, attempts, maxAttempts, e.job, e.worker, at), sys.execs - {id})
  {
    hide After, AttemptsOf, AfterRun;
    var sys := AfterRun(run);
    var e, attempts := sys.execs[id], AttemptsOf(After(sys.ops), sys.execs[id].job.key);
    if outcome.Retryable? && attempts < maxAttempts {
      RetrySteps(run, id, maxAttempts, at);
    } else {
      var only := Steps(outcome, attempts, maxAttempts, id, at)[0];
      assert Steps(outcome, attempts, maxAttempts, id, at) == [only];
      NoOp(sys.ops);
      RunOn(run, only);
    }
  }

  lemma RetrySteps(run: seq<Step>, id: nat, maxAttempts: int, at: int)
    requires IsRunning(AfterRun(run), id)
    requires var sys := AfterRun(run); AttemptsOf(After(sys.ops), sys.execs[id].job.key) < maxAttempts
    ensures var sys := AfterRun(run); var e := sys.execs[id];
            AfterRun(run + ([Retry(id, maxAttempts)] + [Requeue(id, at)])) ==
            Sys(sys.ops + [Complete(e.job.key, e.worker), Enqueue(e.job, at)], sys.execs - {id})
  {
    hide After, AttemptsOf, AfterRun;
    var sys := AfterRun(run);
    var e, run' := sys.execs[id], run + [Retry(id, maxAttempts)];
    RunOn(run, Retry(id, maxAttempts));
    RunOn(run', Requeue(id, at));
    assert run + ([Retry(id, maxAttempts)] + [Requeue(id, at)]) == run' + [Requeue(id, at)];
    assert sys.ops + [Complete(e.job.key, e.worker)] + [Enqueue(e.job, at)] ==
           sys.ops + [Complete(e.job.key, e.worker), Enqueue(e.job, at)];
    assert sys.execs[id := e.(requeueing := true)] - {id} == sys.execs - {id};
  }

  // ---- Claims as steps ---------------------------------------------------

  function ClaimSteps(jobs: seq<Job>, base: nat, worker: string, until: int): seq<Step> {
    if jobs == [] then []
    else
      var n := |jobs| - 1;
      ClaimSteps(jobs[..n], base, worker, until) + [ClaimOne(base + n, jobs[n].key, worker, until)]
  }

  /** The executions in flight while jobs from place i on are still to be run. */
  function Holding(execs: map<nat, Exec>, jobs: seq<Job>, i: nat, base: nat, worker: string): map<nat, Exec>
    decreases |jobs| - i
  {
    if i >= |jobs| then execs
    else Holding(execs, jobs, i + 1, base, worker)[base + i := Exec(jobs[i], worker, false)]
  }

  ghost predicate Above(execs: map<nat, Exec>, base: nat) { forall id | id in execs :: id < base }

  lemma {:induction false} HoldingAbsent(
    execs: map<nat, Exec>, jobs: seq<Job>, i: nat, base: nat, worker: string, id: nat)
    requires Above(execs, base) && base <= id && (id < base + i || base + |jobs| <= id)
    ensures id !in Holding(execs, jobs, i, base, worker)
    decreases |jobs| - i
  {
    if i < |jobs| { HoldingAbsent(execs, jobs, i + 1, base, worker, id); }
  }

  lemma HoldingOne(execs: map<nat, Exec>, jobs: seq<Job>, i: nat, base: nat, worker: string)
    requires Above(execs, base) && i < |jobs|
    ensures var h := Holding(execs, jobs, i, base, worker);
            base + i in h && h[base + i] == Exec(jobs[i], worker, false)
            && h - {base + i} == Holding(execs, jobs, i + 1, base, worker)
  {
    HoldingAbsent(execs, jobs, i + 1, base, worker, base + i);
  }

  lemma HoldingNone(execs: map<nat, Exec>, base: nat, worker: string)
    ensures Holding(execs, [], 0, base, worker) == execs
  {
  }

  lemma {:induction false} HoldingSnoc(
    execs: map<nat, Exec>, jobs: seq<Job>, job: Job, i: nat, base: nat, worker: string)
    requires i <= |jobs|
    ensures Holding(execs, jobs + [job], i, base, worker) ==
            Holding(execs, jobs, i, base, worker)[base + |jobs| := Exec(job, worker, false)]
    decreases |jobs| - i
  {
    if i < |jobs| {
      HoldingSnoc(execs, jobs, job, i + 1, base, worker);
    } else {
      assert Holding(execs, jobs + [job], i + 1, base, worker) == execs;
    }
  }

  lemma {:induction false} StillPending(ops: seq<Op>, jobs: seq<Job>, worker: string, until: int, key: string)
    requires key in After(ops).pending && forall i | 0 <= i < |jobs| :: jobs[i].key != key
    ensures var s := After(ops + Takes(jobs, worker, until));
            key in s.pending && s.pending[key] == After(ops).pending[key]
  {
    if jobs == [] {
      NoOp(ops);
    } else {
      var front, op := jobs[..|jobs| - 1], Take(jobs[|jobs| - 1].key, worker, until);
      StillPending(ops, front, worker, until, key);
      Extends(ops + Takes(front, worker, until), op);
      assert ops + Takes(jobs, worker, until) == ops + Takes(front, worker, until) + [op];
    }
  }

  /** A batch of distinct pending jobs is claimed by that many steps of the machine. */
  lemma {:induction false} ClaimsPerform(
    run: seq<Step>, jobs: seq<Job>, base: nat, queue: string, now: int, worker: string, until: int)
    requires Above(AfterRun(run).execs, base) && InTurn(After(AfterRun(run).ops), jobs, queue, now)
    ensures AfterRun(run + ClaimSteps(jobs, base, worker, until)) ==
            Sys(AfterRun(run).ops + Takes(jobs, worker, until), Holding(AfterRun(run).execs, jobs, 0, base, worker))
  {
    hide After, AfterRun, Holding;
    var sys := AfterRun(run);
    if jobs == [] {
      NoOp(sys.ops);
      HoldingNone(sys.execs, base, worker);
      assert run + ClaimSteps(jobs, base, worker, until) == run;
    } else {
      var n := |jobs| - 1;
      var front, job := jobs[..n], jobs[n];
      ClaimsPerform(run, front, base, queue, now, worker, until);
      StillPending(sys.ops, front, worker, until, job.key);
      HoldingAbsent(sys.execs, front, 0, base, worker, base + n);
      HoldingSnoc(sys.execs, front, job, 0, base, worker);
      assert front + [job] == jobs;
      ClaimNext(run + ClaimSteps(front, base, worker, until), base + n, job, worker, until);
      assert run + ClaimSteps(jobs, base, worker, until) ==
             run + ClaimSteps(front, base, worker, until) + [ClaimOne(base + n, job.key, worker, until)];
      assert sys.ops + Takes(jobs, worker, until) ==
             sys.ops + Takes(front, worker, until) + [Take(job.key, worker, until)];
    }
  }

  lemma ClaimNext(run: seq<Step>, id: nat, job: Job, worker: string, until: int)
    requires var sys := AfterRun(run);
             id !in sys.execs && job.key in After(sys.ops).pending && After(sys.ops).pending[job.key].job == job
    ensures AfterRun(run + [ClaimOne(id, job.key, worker, until)]) ==
            Sys(AfterRun(run).ops + [Take(job.key, worker, until)], AfterRun(run).execs[id := Exec(job, worker, false)])
  {
    RunOn(run, ClaimOne(id, job.key, worker, until));
  }

  function ClaimCount(run: seq<Step>): nat {
    if run == [] then 0 else ClaimCount(run[..|run| - 1]) + One(run[|run| - 1].ClaimOne?)
  }

  lemma {:induction false} ClaimCountAppend(a: seq<Step>, b: seq<Step>)
    ensures ClaimCount(a + b) == ClaimCount(a) + ClaimCount(b)
  {
    if b == [] { assert a + b == a; } else {
      assert (a + b)[..|a + b| - 1] == a + b[..|b| - 1];
      ClaimCountAppend(a, b[..|b| - 1]);
    }
  }

  lemma {:induction false} ClaimStepsCount(jobs: seq<Job>, base: nat, worker: string, until: int)
    ensures ClaimCount(ClaimSteps(jobs, base, worker, until)) == |jobs|
  {
    if jobs != [] {
      var n := |jobs| - 1;
      ClaimStepsCount(jobs[..n], base, worker, until);
      ClaimCountAppend(ClaimSteps(jobs[..n], base, worker, until), [ClaimOne(base + n, jobs[n].key, worker, until)]);
      CountOne(ClaimOne(base + n, jobs[n].key, worker, until));
    }
  }

  lemma StepsCount(outcome: Outcome, attempts: nat, maxAttempts: int, id: nat, at: int)
    ensures ClaimCount(Steps(outcome, attempts, maxAttempts, id, at)) == 0
  {
    if outcome.Retryable? && attempts < maxAttempts {
      CountOne(Retry(id, maxAttempts));
      CountOne(Requeue(id, at));
      ClaimCountAppend([Retry(id, maxAttempts)], [Requeue(id, at)]);
    } else {
      CountOne(Steps(outcome, attempts, maxAttempts, id, at)[0]);
    }
  }

  lemma CountOne(step: Step)
    ensures ClaimCount([step]) == One(step.ClaimOne?)
  {
    assert [step][..0] == [];
  }

  /** An exception abandons the jobs of the batch that were not yet run. */
  lemma {:induction false} CrashRest(
    run: seq<Step>, execs: map<nat, Exec>, jobs: seq<Job>, i: nat, base: nat, worker: string)
    returns (run': seq<Step>)
    requires Above(execs, base) && AfterRun(run).execs == Holding(execs, jobs, i, base, worker)
    ensures run <= run' && AfterRun(run') == Sys(AfterRun(run).ops, execs) && ClaimCount(run') == ClaimCount(run)
    ensures forall n | |run| <= n < |run'| :: run'[n].Crash?
    decreases |jobs| - i
  {
    run' := run;
    if i < |jobs| {
      var next := run + [Crash(base + i)];
      RunOn(run, Crash(base + i));
      NoOp(AfterRun(run).ops);
      HoldingOne(execs, jobs, i, base, worker);
      ClaimCountAppend(run, [Crash(base + i)]);
      CountOne(Crash(base + i));
      run' := CrashRest(next, execs, jobs, i + 1, base, worker);
    }
  }

  lemma HoldingDone(execs: map<nat, Exec>, jobs: seq<Job>, base: nat, worker: string)
    ensures Holding(execs, jobs, |jobs|, base, worker) == execs
  {
  }

  lemma SameClaims(run: seq<Step>, run': seq<Step>, id: nat)
    requires exists outcome, attempts, most, at :: run' == run + Steps(outcome, attempts, most, id, at)
    ensures run <= run' && ClaimCount(run') == ClaimCount(run)
  {
    hide Steps, ClaimCount;
    var outcome, attempts, most, at :| run' == run + Steps(outcome, attempts, most, id, at);
    StepsCount(outcome, attempts, most, id, at);
    ClaimCountAppend(run, Steps(outcome, attempts, most, id, at));
  }

  lemma ReleaseRun(run: seq<Step>, now: int) returns (run': seq<Step>)
    ensures run' == run + [ReleaseLeases(now)] && ClaimCount(run') == ClaimCount(run)
    ensures AfterRun(run') == Sys(AfterRun(run).ops + [Release(now)], AfterRun(run).execs)
  {
    run' := run + [ReleaseLeases(now)];
    RunOn(run, ReleaseLeases(now));
    ClaimCountAppend(run, [ReleaseLeases(now)]);
    CountOne(ReleaseLeases(now));
  }

  /** A claim, as the run it is. */
  lemma ClaimRun(run: seq<Step>, jobs: seq<Job>, queue: string, seen: int, now: int, worker: string, until: int)
    returns (run': seq<Step>, base: nat)
    requires FairBatch(Released(After(AfterRun(run).ops), seen), jobs, queue, now)
    ensures run <= run' && ClaimCount(run') == ClaimCount(run) + |jobs| && Above(AfterRun(run).execs, base)
    ensures TakesBatch(run, run', base, |jobs|)
    ensures run' == run + [ReleaseLeases(seen)] + ClaimSteps(jobs, base, worker, until)
    ensures AfterRun(run') == Sys(AfterRun(run).ops + [Release(seen)] + Takes(jobs, worker, until),
                                  Holding(AfterRun(run).execs, jobs, 0, base, worker))
  {
    hide AfterRun, ClaimCount, Holding, ClaimSteps, Takes;
    var freed := ReleaseRun(run, seen);
    base := AboveAll(AfterRun(run).execs.Keys);
    ReleaseApplies(AfterRun(run).ops, seen);
    ClaimsPerform(freed, jobs, base, queue, now, worker, until);
    ClaimCountAppend(freed, ClaimSteps(jobs, base, worker, until));
    ClaimStepsCount(jobs, base, worker, until);
    run' := freed + ClaimSteps(jobs, base, worker, until);
    forall n | |freed| <= n < |run'| ensures run'[n].ClaimOne? && base <= run'[n].id < base + |jobs| {
      ClaimStepsAre(jobs, base, worker, until, n - |freed|);
    }
  }

  // ---- What a pass looks at ----------------------------------------------

  /** At place n a batch of the queue was claimed: its earliest due jobs, after expired leases were released. */
  ghost predicate PolledAt(run: seq<Step>, n: nat, jobs: seq<Job>, base: nat, queue: string, worker: string,
                           leaseMs: int, seen: int, now: int)
  {
    && n < |run| && [ReleaseLeases(seen)] + ClaimSteps(jobs, base, worker, now + leaseMs) <= run[n..]
    && FairBatch(Released(After(AfterRun(run[..n]).ops), seen), jobs, queue, now)
  }

  /** The queue was polled since then, at some of the clock's readings. */
  ghost predicate Polled(run: seq<Step>, from: nat, env: Env, queue: string, worker: string, leaseMs: int) {
    exists n: nat, jobs, base: nat, k: nat ::
      from <= n && PolledAt(run, n, jobs, base, queue, worker, leaseMs, env.seen(k), env.now(k))
  }

  ghost predicate OnlyReleases(run: seq<Step>, run': seq<Step>) {
    run <= run' && forall n | |run| <= n < |run'| :: run'[n].ReleaseLeases?
  }

  /** The key is pending on one of the queues and due whenever the clock is read. */
  ghost predicate DueFor(s: State, key: string, queues: seq<string>, env: Env) {
    && key in s.pending && s.pending[key].job.queue in queues
    && forall k: nat :: s.pending[key].availableAt <= env.now(k)
  }

  lemma TakenPolls(start: seq<Step>, taken: seq<Step>, env: Env, k: nat, jobs: seq<Job>, base: nat, queue: string,
                   worker: string, leaseMs: int)
    requires taken == start + [ReleaseLeases(env.seen(k))] + ClaimSteps(jobs, base, worker, env.now(k) + leaseMs)
    requires FairBatch(Released(After(AfterRun(start).ops), env.seen(k)), jobs, queue, env.now(k))
    ensures Polled(taken, |start|, env, queue, worker, leaseMs)
    ensures jobs == [] ==> OnlyReleases(start, taken)
  {
    hide AfterRun, After, Released, FairBatch, ClaimSteps;
    NoClaimSteps(base, worker, env.now(k) + leaseMs);
    assert taken[..|start|] == start;
    assert taken[|start|..] == [ReleaseLeases(env.seen(k))] + ClaimSteps(jobs, base, worker, env.now(k) + leaseMs);
    assert PolledAt(taken, |start|, jobs, base, queue, worker, leaseMs, env.seen(k), env.now(k));
  }

  lemma NoClaimSteps(base: nat, worker: string, until: int)
    ensures ClaimSteps([], base, worker, until) == []
  {
  }

  lemma PolledLater(run: seq<Step>, run': seq<Step>, from: nat, env: Env, queue: string, worker: string, leaseMs: int)
    requires Polled(run, from, env, queue, worker, leaseMs) && run <= run'
    ensures Polled(run', from, env, queue, worker, leaseMs)
    ensures forall earlier: nat | earlier <= from :: Polled(run', earlier, env, queue, worker, leaseMs)
  {
    hide AfterRun, After, Released, FairBatch, ClaimSteps;
    var n: nat, jobs, base: nat, k: nat :|
      from <= n && PolledAt(run, n, jobs, base, queue, worker, leaseMs, env.seen(k), env.now(k));
    assert run'[..n] == run[..n] && run[n..] <= run'[n..];
    assert PolledAt(run', n, jobs, base, queue, worker, leaseMs, env.seen(k), env.now(k));
  }

  lemma PolledOn(start: seq<Step>, run': seq<Step>, from: nat, later: nat, env: Env, queues: seq<string>, q: nat,
                 worker: string, leaseMs: int)
    requires q < |queues| && start <= run' && from <= later
    requires forall j | 0 <= j < q :: Polled(start, from, env, queues[j], worker, leaseMs)
    requires Polled(run', later, env, queues[q], worker, leaseMs)
    ensures forall j | 0 <= j < q + 1 :: Polled(run', from, env, queues[j], worker, leaseMs)
  {
    hide Polled;
    forall j | 0 <= j < q + 1 ensures Polled(run', from, env, queues[j], worker, leaseMs) {
      if j < q { PolledLater(start, run', from, env, queues[j], worker, leaseMs); }
      else { PolledLater(run', run', later, env, queues[q], worker, leaseMs); }
    }
  }

  lemma ReleasedOnly(run: seq<Step>, now: int)
    ensures OnlyReleases(run, run + [ReleaseLeases(now)])
  {
  }

  lemma OnlyReleasesOn(a: seq<Step>, b: seq<Step>, c: seq<Step>)
    requires OnlyReleases(a, b) && OnlyReleases(b, c)
    ensures OnlyReleases(a, c)
  {
    forall n | |a| <= n < |c| ensures c[n].ReleaseLeases? {
      if n < |b| { assert c[n] == b[n]; }
    }
  }

  lemma {:induction false} SubsetSize(a: set<string>, b: set<string>)
    requires a <= b
    ensures |a| <= |b|
  {
    if a != {} {
      var x :| x in a;
      SubsetSize(a - {x}, b - {x});
    }
  }

  /** Releases leave what is pending where it is. */
  lemma {:induction false} StaysPending(run: seq<Step>, run': seq<Step>, key: string)
    requires OnlyReleases(run, run') && key in After(AfterRun(run).ops).pending
    ensures var s, s' := After(AfterRun(run).ops), After(AfterRun(run').ops);
            key in s'.pending && s'.pending[key] == s.pending[key]
    decreases |run'|
  {
    hide After, AfterRun;
    if run' == run {
    } else {
      var before, step := run'[..|run'| - 1], run'[|run'| - 1];
      assert before + [step] == run' && run <= before;
      assert forall n | |run| <= n < |before| :: before[n] == run'[n];
      StaysPending(run, before, key);
      RunOn(before, step);
      PendingReleased(AfterRun(before).ops, key, step.now);
    }
  }

  lemma PendingReleased(ops: seq<Op>, key: string, now: int)
    requires key in After(ops).pending
    ensures var s, s' := After(ops), After(ops + [Release(now)]);
            key in s'.pending && s'.pending[key] == s.pending[key]
    ensures Released(After(ops), now) == After(ops + [Release(now)])
  {
    hide After, ExpiredKeys;
    OnePlace(ops, key);
    ReleaseApplies(ops, now);
  }

  /** A pass that claims nothing found nothing due. */
  lemma NothingDue(run: seq<Step>, run': seq<Step>, env: Env, queues: seq<string>, worker: string, leaseMs: int)
    requires OnlyReleases(run, run')
    requires forall q | 0 <= q < |queues| :: Polled(run', |run|, env, queues[q], worker, leaseMs)
    ensures forall key :: !DueFor(After(AfterRun(run).ops), key, queues, env)
  {
    hide After, AfterRun, Released, Polled, OnlyReleases;
    var s := After(AfterRun(run).ops);
    forall key | key in s.pending && s.pending[key].job.queue in queues
      ensures !DueFor(s, key, queues, env)
    {
      var q :| 0 <= q < |queues| && queues[q] == s.pending[key].job.queue;
      assert Polled(run', |run|, env, queues[q], worker, leaseMs);
      NotDue(run, run', env, queues, key, queues[q], worker, leaseMs);
    }
  }

  lemma NotDue(run: seq<Step>, run': seq<Step>, env: Env, queues: seq<string>, key: string, queue: string,
               worker: string, leaseMs: int)
    requires OnlyReleases(run, run') && Polled(run', |run|, env, queue, worker, leaseMs)
    requires key in After(AfterRun(run).ops).pending && After(AfterRun(run).ops).pending[key].job.queue == queue
    ensures !DueFor(After(AfterRun(run).ops), key, queues, env)
  {
    hide After, AfterRun, PolledAt, OnlyReleases;
    var n: nat, jobs, base: nat, k: nat :|
      |run| <= n && PolledAt(run', n, jobs, base, queue, worker, leaseMs, env.seen(k), env.now(k));
    NotDueAt(run, run', n, jobs, base, queue, worker, leaseMs, env.seen(k), env.now(k), key);
  }

  lemma NotDueAt(run: seq<Step>, run': seq<Step>, n: nat, jobs: seq<Job>, base: nat, queue: string, worker: string,
                 leaseMs: int, seen: int, now: int, key: string)
    requires OnlyReleases(run, run') && |run| <= n && PolledAt(run', n, jobs, base, queue, worker, leaseMs, seen, now)
    requires key in After(AfterRun(run).ops).pending && After(AfterRun(run).ops).pending[key].job.queue == queue
    ensures now < After(AfterRun(run).ops).pending[key].availableAt
  {
    hide After, AfterRun, Released, ClaimSteps, FairBatch;
    var before := run'[..n];
    assert forall i | |run| <= i < n :: before[i] == run'[i];
    StaysPending(run, before, key);
    PendingReleased(AfterRun(before).ops, key, seen);
    NoneTaken(run', n, jobs, base, worker, seen, now + leaseMs);
    NothingLeft(Released(After(AfterRun(before).ops), seen), key, queue, now);
  }

  lemma NothingLeft(s: State, key: string, queue: string, now: int)
    ensures FairBatch(s, [], queue, now) ==> !Eligible(s, key, queue, now)
  {
  }

  lemma NoneTaken(run: seq<Step>, n: nat, jobs: seq<Job>, base: nat, worker: string, seen: int, until: int)
    requires n < |run| && [ReleaseLeases(seen)] + ClaimSteps(jobs, base, worker, until) <= run[n..]
    ensures jobs != [] ==> exists i | n <= i < |run| :: run[i].ClaimOne?
  {
    if jobs != [] {
      var steps := [ReleaseLeases(seen)] + ClaimSteps(jobs, base, worker, until);
      var last := |steps| - 1;
      assert steps[last].ClaimOne? && run[n..][last] == run[n + last];
    }
  }

  // ---- What a worker's own steps look like -------------------------------

  /** Not a producer's step; a retry by the limit of the job's queue; a crash only where an exception was thrown. */
  predicate OwnStep(sys: Sys, step: Step, overrides: map<string, RetryLimits>, mayCrash: bool) {
    && !step.Produce? && !step.Withdraw? && (step.Crash? ==> mayCrash)
    && (step.Retry? && IsRunning(sys, step.id) ==>
          step.maxAttempts == LimitsFor(overrides, sys.execs[step.id].job.queue).maxAttempts)
  }

  /** The run goes on by own steps of a worker. */
  ghost predicate Continues(run: seq<Step>, run': seq<Step>, overrides: map<string, RetryLimits>, mayCrash: bool) {
    run <= run' && forall n | |run| <= n < |run'| :: OwnStep(AfterRun(run'[..n]), run'[n], overrides, mayCrash)
  }

  ghost predicate NoClaims(run: seq<Step>, run': seq<Step>) {
    run <= run' && forall n | |run| <= n < |run'| :: !run'[n].ClaimOne?
  }

  /** At place m the execution ran: the steps of its own outcome follow. */
  ghost predicate RanAt(run: seq<Step>, m: nat, id: nat, at: int, handlers: map<(string, nat), Handler>,
                        current: map<string, nat>, overrides: map<string, RetryLimits>)
  {
    m <= |run| && IsRunning(AfterRun(run[..m]), id) &&
    var sys := AfterRun(run[..m]);
    var job := sys.execs[id].job;
    var attempts := AttemptsOf(After(sys.ops), job.key);
    Steps(Judge(handlers, current, job, attempts), attempts, LimitsFor(overrides, job.queue).maxAttempts, id, at)
      <= run[m..]
  }

  ghost predicate Answered(run: seq<Step>, from: nat, id: nat, handlers: map<(string, nat), Handler>,
                           current: map<string, nat>, overrides: map<string, RetryLimits>)
  {
    exists m: nat, at :: from <= m && RanAt(run, m, id, at, handlers, current, overrides)
  }

  ghost predicate AllAnswered(run: seq<Step>, from: nat, base: nat, size: nat, handlers: map<(string, nat), Handler>,
                              current: map<string, nat>, overrides: map<string, RetryLimits>)
  {
    forall id: nat | base <= id < base + size :: Answered(run, from, id, handlers, current, overrides)
  }

  /** Every job claimed since then was judged, and its outcome performed. */
  ghost predicate ClaimsAnswered(run: seq<Step>, run': seq<Step>, handlers: map<(string, nat), Handler>,
                                 current: map<string, nat>, overrides: map<string, RetryLimits>)
  {
    run <= run' && forall n | |run| <= n < |run'| && run'[n].ClaimOne? ::
      Answered(run', n + 1, run'[n].id, handlers, current, overrides)
  }

  /** At place m an execution failed for good unseen, or its handler was called and its answer followed. */
  ghost predicate FollowsUp(run: seq<Step>, m: nat, id: nat, handlers: map<(string, nat), Handler>,
                            current: map<string, nat>, overrides: map<string, RetryLimits>)
  {
    m < |run| && IsRunning(AfterRun(run[..m]), id) &&
    var sys, most := AfterRun(run[..m]), LimitsFor(overrides, AfterRun(run[..m]).execs[id].job.queue).maxAttempts;
    var job := sys.execs[id].job;
    var attempts := AttemptsOf(After(sys.ops), job.key);
    var cancelled := job.runId != "" && job.generation < (if job.runId in current then current[job.runId] else 0);
    if cancelled || (job.jobType, job.version) !in handlers
    then run[m] == Fail(id)
    else
      match handlers[(job.jobType, job.version)](job, attempts)
      case Succeeded => run[m] == Succeed(id)
      case Permanent => run[m] == Fail(id)
      case Thrown => run[m] == Crash(id)
      case Retryable =>
        run[m] == Retry(id, most) && (attempts < most ==> m + 1 < |run| && run[m + 1].Requeue? && run[m + 1].id == id)
  }

  /** Every job claimed in a pass that did not throw: cancelled ones and those without a handler fail unseen. */
  lemma ClaimFollowedUp(run: seq<Step>, run': seq<Step>, n: nat, handlers: map<(string, nat), Handler>,
                        current: map<string, nat>, overrides: map<string, RetryLimits>) returns (m: nat)
    requires ClaimsAnswered(run, run', handlers, current, overrides) && |run| <= n < |run'| && run'[n].ClaimOne?
    ensures n < m && FollowsUp(run', m, run'[n].id, handlers, current, overrides)
  {
    hide AfterRun, After, AttemptsOf, LimitsFor;
    var at;
    m, at :| n + 1 <= m && RanAt(run', m, run'[n].id, at, handlers, current, overrides);
    assert run'[m..][0] == run'[m];
    assert m + 1 < |run'| ==> run'[m..][1] == run'[m + 1];
  }

  lemma ContinuesOn(a: seq<Step>, b: seq<Step>, c: seq<Step>, overrides: map<string, RetryLimits>, mayCrash: bool)
    requires Continues(a, b, overrides, false) && Continues(b, c, overrides, mayCrash)
    ensures a <= b <= c && Continues(a, c, overrides, mayCrash)
  {
    hide AfterRun, LimitsFor;
    forall n | |a| <= n < |c| ensures OwnStep(AfterRun(c[..n]), c[n], overrides, mayCrash) {
      if n < |b| { assert c[..n] == b[..n] && c[n] == b[n]; }
    }
  }

  lemma AnsweredOn(run: seq<Step>, run': seq<Step>, from: nat, from': nat, id: nat,
                   handlers: map<(string, nat), Handler>, current: map<string, nat>,
                   overrides: map<string, RetryLimits>)
    requires Answered(run, from, id, handlers, current, overrides) && run <= run' && from' <= from
    ensures Answered(run', from', id, handlers, current, overrides)
  {
    hide AfterRun, After, Judge, Steps;
    var m: nat, at :| from <= m && RanAt(run, m, id, at, handlers, current, overrides);
    assert run'[..m] == run[..m] && run[m..] <= run'[m..];
    assert RanAt(run', m, id, at, handlers, current, overrides);
  }

  lemma NoClaimsOn(a: seq<Step>, b: seq<Step>, c: seq<Step>)
    requires NoClaims(a, b) && NoClaims(b, c)
    ensures NoClaims(a, c)
  {
    forall n | |a| <= n < |c| ensures !c[n].ClaimOne? {
      if n < |b| { assert c[n] == b[n]; }
    }
  }

  lemma StartContinues(run: seq<Step>, base: nat, handlers: map<(string, nat), Handler>,
                       current: map<string, nat>, overrides: map<string, RetryLimits>)
    ensures Continues(run, run, overrides, false) && NoClaims(run, run)
    ensures AllAnswered(run, |run|, base, 0, handlers, current, overrides)
    ensures ClaimsAnswered(run, run, handlers, current, overrides)
  {
    hide AfterRun, LimitsFor, Answered;
  }

  lemma CrashesOn(a: seq<Step>, b: seq<Step>, c: seq<Step>, overrides: map<string, RetryLimits>)
    requires Continues(a, b, overrides, true) && Continues(b, c, overrides, true)
    ensures a <= c && Continues(a, c, overrides, true)
  {
    hide AfterRun, LimitsFor;
    forall n | |a| <= n < |c| ensures OwnStep(AfterRun(c[..n]), c[n], overrides, true) {
      if n < |b| { assert c[..n] == b[..n] && c[n] == b[n]; }
    }
  }

  /** The steps of one execution are a worker's own, and answer it. */
  lemma StepsContinue(run: seq<Step>, id: nat, at: int, handlers: map<(string, nat), Handler>,
                      current: map<string, nat>, overrides: map<string, RetryLimits>)
    requires IsRunning(AfterRun(run), id)
    ensures var sys := AfterRun(run); var job := sys.execs[id].job;
            var attempts := AttemptsOf(After(sys.ops), job.key);
            var outcome := Judge(handlers, current, job, attempts);
            var run' := run + Steps(outcome, attempts, LimitsFor(overrides, job.queue).maxAttempts, id, at);
            && Continues(run, run', overrides, outcome.Thrown?) && NoClaims(run, run')
            && Answered(run', |run|, id, handlers, current, overrides)
  {
    hide AfterRun, After, Judge, AttemptsOf, LimitsFor;
    var sys := AfterRun(run);
    var job := sys.execs[id].job;
    var attempts := AttemptsOf(After(sys.ops), job.key);
    var steps := Steps(Judge(handlers, current, job, attempts), attempts, LimitsFor(overrides, job.queue).maxAttempts, id, at);
    var run' := run + steps;
    assert run'[..|run|] == run && run'[|run|..] == steps;
    assert RanAt(run', |run|, id, at, handlers, current, overrides);
    forall n | |run| <= n < |run'|
      ensures OwnStep(AfterRun(run'[..n]), run'[n], overrides, Judge(handlers, current, job, attempts).Thrown?)
      ensures !run'[n].ClaimOne?
    {
      assert run'[n] == steps[n - |run|];
    }
  }

  lemma {:induction false} ClaimStepsAre(jobs: seq<Job>, base: nat, worker: string, until: int, n: nat)
    requires n < |ClaimSteps(jobs, base, worker, until)|
    ensures var step := ClaimSteps(jobs, base, worker, until)[n]; step.ClaimOne? && base <= step.id < base + |jobs|
  {
    var k := |jobs| - 1;
    if n < |ClaimSteps(jobs[..k], base, worker, until)| { ClaimStepsAre(jobs[..k], base, worker, until, n); }
  }

  /** Taking a batch: claims of these ids, and a release. */
  ghost predicate TakesBatch(run: seq<Step>, run': seq<Step>, base: nat, size: nat) {
    run <= run' && forall n | |run| <= n < |run'| ::
      run'[n].ReleaseLeases? || (run'[n].ClaimOne? && base <= run'[n].id < base + size)
  }

  lemma TakingContinues(run: seq<Step>, run': seq<Step>, base: nat, size: nat, overrides: map<string, RetryLimits>)
    requires TakesBatch(run, run', base, size)
    ensures Continues(run, run', overrides, false)
  {
    hide AfterRun, LimitsFor;
  }

  lemma CrashesContinue(run: seq<Step>, run': seq<Step>, overrides: map<string, RetryLimits>)
    requires run <= run' && forall n | |run| <= n < |run'| :: run'[n].Crash?
    ensures Continues(run, run', overrides, true) && NoClaims(run, run')
  {
    hide AfterRun, LimitsFor;
  }

  lemma ReleaseContinues(run: seq<Step>, now: int, handlers: map<(string, nat), Handler>,
                         current: map<string, nat>, overrides: map<string, RetryLimits>)
    ensures Continues(run, run + [ReleaseLeases(now)], overrides, false)
    ensures ClaimsAnswered(run, run + [ReleaseLeases(now)], handlers, current, overrides)
  {
    hide AfterRun, LimitsFor, Answered;
  }

  lemma AnsweredNext(run: seq<Step>, start: seq<Step>, run': seq<Step>, base: nat, size: nat,
                     handlers: map<(string, nat), Handler>, current: map<string, nat>,
                     overrides: map<string, RetryLimits>)
    requires AllAnswered(start, |run|, base, size, handlers, current, overrides) && run <= start && start <= run'
    requires Answered(run', |start|, base + size, handlers, current, overrides)
    ensures AllAnswered(run', |run|, base, size + 1, handlers, current, overrides)
  {
    hide Answered;
    forall id: nat | base <= id < base + size + 1 ensures Answered(run', |run|, id, handlers, current, overrides) {
      if id < base + size { AnsweredOn(start, run', |run|, |run|, id, handlers, current, overrides); }
      else { AnsweredOn(run', run', |start|, |run|, id, handlers, current, overrides); }
    }
  }

  /** A batch that was taken and run leaves every claim answered. */
  lemma BatchAnswers(run: seq<Step>, start: seq<Step>, taken: seq<Step>, run': seq<Step>, base: nat, size: nat,
                     handlers: map<(string, nat), Handler>, current: map<string, nat>,
                     overrides: map<string, RetryLimits>)
    requires ClaimsAnswered(run, start, handlers, current, overrides)
    requires TakesBatch(start, taken, base, size) && NoClaims(taken, run')
    requires AllAnswered(run', |taken|, base, size, handlers, current, overrides)
    ensures ClaimsAnswered(run, run', handlers, current, overrides)
  {
    hide Answered;
    forall n | |run| <= n < |run'| && run'[n].ClaimOne?
      ensures Answered(run', n + 1, run'[n].id, handlers, current, overrides)
    {
      if n < |start| {
        assert run'[n] == start[n];
        AnsweredOn(start, run', n + 1, n + 1, run'[n].id, handlers, current, overrides);
      } else {
        assert n < |taken| && run'[n] == taken[n];
        assert Answered(run', |taken|, run'[n].id, handlers, current, overrides);
        AnsweredOn(run', run', |taken|, n + 1, run'[n].id, handlers, current, overrides);
      }
    }
  }

  // ---- The runtime -------------------------------------------------------

  /**
   * Readings of the clock and the random source, by how many jobs the pass has processed;
   * a claim reads the clock twice, and sees the first reading before the second.
   */
  datatype Env = Env(seen: nat -> int, now: nat -> int, random: nat -> real)

  datatype Pass = Processed(count: nat) | Threw

  class WorkerRuntime {
    const queues: seq<string>
    const leaseMs: int
    const maxConcurrent: int
    const workerId: string
    const overrides: map<string, RetryLimits>
    const registry: JobRegistry
    const transport: InMemoryTransport
    const fence: CancellationFence
    var running: bool
    var draining: bool
    var stopRequested: bool
    var inFlight: set<string>

    constructor (queues: seq<string>, leaseMs: int, maxConcurrent: int, workerId: string,
                 overrides: map<string, RetryLimits>, registry: JobRegistry, transport: InMemoryTransport,
                 fence: CancellationFence)
      ensures this.queues == queues && this.leaseMs == leaseMs && this.maxConcurrent == maxConcurrent
      ensures this.workerId == workerId && this.overrides == overrides
      ensures this.registry == registry && this.transport == transport && this.fence == fence
      ensures !running && !draining && !stopRequested && inFlight == {}
    {
      this.queues, this.leaseMs, this.maxConcurrent, this.workerId := queues, leaseMs, maxConcurrent, workerId;
      this.overrides, this.registry, this.transport, this.fence := overrides, registry, transport, fence;
      running, draining, stopRequested, inFlight := false, false, false, {};
    }

    /** The queue is where the run has left it. */
    ghost predicate At(run: seq<Step>)
      reads this, transport
    {
      transport.Valid() && transport.log == AfterRun(run).ops
    }

    /** The retry limits of a queue: its defaults, unless they are overridden. */
    method RetryLimitsOf(queue: string) returns (limits: RetryLimits)
      ensures limits == LimitsFor(overrides, queue)
    {
      if queue in overrides { return overrides[queue]; }
      var most := if queue in RETRY_DEFAULTS then RETRY_DEFAULTS[queue] else 8;
      return RetryLimits(most, 1, 60);
    }

    /** What follows from a handler's answer. */
    method ActOn(job: Job, outcome: Outcome, attempts: nat, limits: RetryLimits, now: int, random: real) returns (threw: bool)
      requires transport.Valid()
      modifies transport
      ensures transport.Valid() && (threw <==> outcome.Thrown?)
      ensures transport.log == old(transport.log) +
              JobOps(outcome, attempts, limits.maxAttempts, job, workerId,
                     now + BackoffDelayMs(attempts + 1, limits.base, limits.cap, random).value)
    {
      hide After, Apply, JitterMs, Pow2;
      NoOp(transport.log);
      match outcome {
        case Succeeded => var _ := transport.Complete(job.key, workerId);
        case Permanent => transport.DeadLetter(job.key);
        case Thrown => return true;
        case Retryable =>
          if attempts >= limits.maxAttempts {
            transport.DeadLetter(job.key);
          } else {
            var delay := ComputeBackoff(attempts + 1, limits.base, limits.cap, random);
            var _ := transport.Complete(job.key, workerId);
            var _ := transport.Enqueue(job, delay.value, now);
          }
      }
      return false;
    }

    /**
     * A cancelled job and one without a handler are dead-lettered unseen. Otherwise the
     * handler is called with the attempts so far, and what it returns decides.
     */
    method ExecuteClaimed(job: Job, now: int, random: real, ghost run: seq<Step>, ghost id: nat)
      returns (threw: bool, ghost run': seq<Step>)
      requires At(run) && id in AfterRun(run).execs
      requires AfterRun(run).execs[id] == Exec(job, workerId, false)
      modifies transport
      ensures At(run') && AfterRun(run').execs == AfterRun(run).execs - {id}
      ensures (job.runId != "" && job.generation < (if job.runId in fence.current then fence.current[job.runId] else 0))
              || (job.jobType, job.version) !in registry.handlers ==>
                !threw && transport.log == old(transport.log) + [Bury(job.key)]
      ensures !(job.runId != "" && job.generation < (if job.runId in fence.current then fence.current[job.runId] else 0))
              && (job.jobType, job.version) in registry.handlers ==>
                var attempts := if job.key in old(transport.attemptCount) then old(transport.attemptCount)[job.key] else 0;
                var limits := LimitsFor(overrides, job.queue);
                var log, outcome := old(transport.log), registry.handlers[(job.jobType, job.version)](job, attempts);
                && (threw <==> outcome.Thrown?)
                && (outcome.Thrown? ==> transport.log == log)
                && (outcome.Succeeded? ==> transport.log == log + [Complete(job.key, workerId)])
                && (outcome.Permanent? ==> transport.log == log + [Bury(job.key)])
                && (outcome.Retryable? && attempts >= limits.maxAttempts ==> transport.log == log + [Bury(job.key)])
                && (outcome.Retryable? && attempts < limits.maxAttempts ==>
                      var delay := BackoffDelayMs(attempts + 1, limits.base, limits.cap, random).value;
                      transport.log == log + [Complete(job.key, workerId), Enqueue(job, now + delay)])
      ensures var attempts := AttemptsOf(old(transport.Now()), job.key);
              var limits := LimitsFor(overrides, job.queue);
              run' == run + Steps(Judge(registry.handlers, fence.current, job, attempts), attempts, limits.maxAttempts, id,
                                  now + BackoffDelayMs(attempts + 1, limits.base, limits.cap, random).value)
      ensures Continues(run, run', overrides, threw) && NoClaims(run, run')
      ensures Answered(run', |run|, id, registry.handlers, fence.current, overrides)
    {
      hide After, AfterRun, Apply, Continues, NoClaims, Answered, LimitsFor, JitterMs, Pow2;
      var limits := RetryLimitsOf(job.queue);
      var attempts := if job.key in transport.attemptCount then transport.attemptCount[job.key] else 0;
      assert attempts == AttemptsOf(After(transport.log), job.key);
      ghost var delay := BackoffDelayMs(attempts + 1, limits.base, limits.cap, random).value;
      ghost var judged := Judge(registry.handlers, fence.current, job, attempts);
      run' := run + Steps(judged, attempts, limits.maxAttempts, id, now + delay);
      StepsPerform(run, judged, limits.maxAttempts, id, now + delay);
      StepsContinue(run, id, now + delay, registry.handlers, fence.current, overrides);
      NoOp(transport.log);
      var fenced := fence.IsFenced(job);
      if fenced || (job.jobType, job.version) !in registry.handlers {
        transport.DeadLetter(job.key);
        return false, run';
      }
      threw := ActOn(job, registry.handlers[(job.jobType, job.version)](job, attempts), attempts, limits, now, random);
    }

    method ExecuteBatch(jobs: seq<Job>, env: Env, before: nat, ghost run: seq<Step>,
                        ghost execs: map<nat, Exec>, ghost base: nat)
      returns (threw: bool, ghost run': seq<Step>)
      requires At(run) && Above(execs, base)
      requires AfterRun(run).execs == Holding(execs, jobs, 0, base, workerId)
      modifies this`inFlight, transport
      ensures At(run') && run <= run' && AfterRun(run').execs == execs && ClaimCount(run') == ClaimCount(run)
      ensures inFlight <= old(inFlight) && Continues(run, run', overrides, threw) && NoClaims(run, run')
      ensures !threw ==> AllAnswered(run', |run|, base, |jobs|, registry.handlers, fence.current, overrides)
      ensures jobs == [] ==> !threw && run' == run
    {
      hide AfterRun, Holding, ClaimCount, Steps, Above, Judge, LimitsFor, Answered, AllAnswered, Continues, NoClaims,
           After, AttemptsOf, BackoffDelayMs;
      StartContinues(run, base, registry.handlers, fence.current, overrides);
      run' := run;
      for i := 0 to |jobs|
        invariant At(run') && run <= run' && ClaimCount(run') == ClaimCount(run)
        invariant Continues(run, run', overrides, false) && NoClaims(run, run')
        invariant AllAnswered(run', |run|, base, i, registry.handlers, fence.current, overrides)
        invariant i == 0 ==> run' == run
        invariant AfterRun(run').execs == Holding(execs, jobs, i, base, workerId)
        invariant inFlight <= old(inFlight)
      {
        HoldingOne(execs, jobs, i, base, workerId);
        ghost var start := run';
        inFlight := inFlight + {jobs[i].key};
        threw, run' := ExecuteClaimed(jobs[i], env.now(before + i), env.random(before + i), start, base + i);
        inFlight := inFlight - {jobs[i].key};
        SameClaims(start, run', base + i);
        ContinuesOn(run, start, run', overrides, threw);
        NoClaimsOn(run, start, run');
        if threw {
          ghost var thrown := run';
          run' := CrashRest(run', execs, jobs, i + 1, base, workerId);
          CrashesContinue(thrown, run', overrides);
          CrashesOn(run, thrown, run', overrides);
          NoClaimsOn(run, thrown, run');
          return;
        }
        AnsweredNext(run, start, run', base, i, registry.handlers, fence.current, overrides);
      }
      HoldingDone(execs, jobs, base, workerId);
      threw := false;
    }

    /** One pass over the queues. */
    method ProcessOnce(nowMs: int, env: Env, ghost run: seq<Step>) returns (pass: Pass, ghost run': seq<Step>)
      requires At(run)
      modifies this`inFlight, transport
      ensures At(run') && run <= run' && AfterRun(run').execs == AfterRun(run).execs
      ensures !old(running) || old(draining) || old(stopRequested) ==> pass == Processed(0) && run' == run
      ensures pass.Processed? ==> ClaimCount(run') == ClaimCount(run) + pass.count
      ensures inFlight <= old(inFlight) && Continues(run, run', overrides, pass.Threw?)
      ensures pass.Processed? ==> ClaimsAnswered(run, run', registry.handlers, fence.current, overrides)
      ensures old(running && !draining && !stopRequested) ==> run + [ReleaseLeases(nowMs)] <= run'
      ensures old(running && !draining && !stopRequested && |inFlight| < maxConcurrent) && pass.Processed? ==>
                forall q | 0 <= q < |queues| :: Polled(run', |run|, env, queues[q], workerId, leaseMs)
      ensures old(running && !draining && !stopRequested && |inFlight| < maxConcurrent) && pass.Processed? ==>
                forall key | DueFor(After(AfterRun(run).ops), key, queues, env) :: pass.count > 0
    {
      hide AfterRun, ClaimCount, ClaimSteps, Holding, After, Apply, Answered, TakesBatch, Continues, ClaimsAnswered, AllAnswered, NoClaims,
           Polled, OnlyReleases, DueFor;
      StartContinues(run, 0, registry.handlers, fence.current, overrides);
      run' := run;
      if !running || draining || stopRequested { return Processed(0), run; }
      var _ := transport.ReleaseExpiredLeases(nowMs);
      run' := ReleaseRun(run', nowMs);
      ReleaseContinues(run, nowMs, registry.handlers, fence.current, overrides);
      ReleasedOnly(run, nowMs);
      ghost var busy := false;
      var processed: nat := 0;
      for q := 0 to |queues|
        invariant At(run') && run <= run' && AfterRun(run').execs == AfterRun(run).execs
        invariant ClaimCount(run') == ClaimCount(run) + processed && inFlight <= old(inFlight)
        invariant Continues(run, run', overrides, false)
        invariant ClaimsAnswered(run, run', registry.handlers, fence.current, overrides)
        invariant run + [ReleaseLeases(nowMs)] <= run' && !busy
        invariant forall j | 0 <= j < q :: Polled(run', |run|, env, queues[j], workerId, leaseMs)
        invariant processed == 0 ==> OnlyReleases(run, run')
      {
        if |inFlight| >= maxConcurrent {
          SubsetSize(inFlight, old(inFlight));
          busy := true;
          break;
        }
        var threw, count;
        ghost var start := run';
        threw, count, run' := ProcessQueue(queues[q], env, processed, run, run');
        if threw { return Threw, run'; }
        PolledOn(start, run', |run|, |start|, env, queues, q, workerId, leaseMs);
        if processed + count == 0 { OnlyReleasesOn(run, start, run'); }
        processed := processed + count;
      }
      if !busy && processed == 0 { NothingDue(run, run', env, queues, workerId, leaseMs); }
      pass := Processed(processed);
    }

    /** Claims from one queue and runs the batch. */
    method ProcessQueue(queue: string, env: Env, before: nat, ghost first: seq<Step>, ghost start: seq<Step>)
      returns (threw: bool, count: nat, ghost run': seq<Step>)
      requires At(start) && Continues(first, start, overrides, false)
      requires ClaimsAnswered(first, start, registry.handlers, fence.current, overrides)
      modifies this`inFlight, transport
      ensures At(run') && start <= run' && AfterRun(run').execs == AfterRun(start).execs
      ensures inFlight <= old(inFlight) && Continues(first, run', overrides, threw)
      ensures !threw ==> ClaimCount(run') == ClaimCount(start) + count
      ensures !threw ==> ClaimsAnswered(first, run', registry.handlers, fence.current, overrides)
      ensures Polled(run', |start|, env, queue, workerId, leaseMs)
      ensures !threw && count == 0 ==> OnlyReleases(start, run')
    {
      hide AfterRun, ClaimCount, ClaimSteps, Holding, After, Apply, Answered, TakesBatch, Continues, ClaimsAnswered,
           AllAnswered, NoClaims, Polled, OnlyReleases, FairBatch;
      var seen, now := env.seen(before), env.now(before);
      var claimed := transport.Claim(queue, leaseMs, workerId, seen, now);
      ghost var taken, base := ClaimRun(start, claimed, queue, seen, now, workerId, now + leaseMs);
      TakingContinues(start, taken, base, |claimed|, overrides);
      ContinuesOn(first, start, taken, overrides, false);
      TakenPolls(start, taken, env, before, claimed, base, queue, workerId, leaseMs);
      threw, run' := ExecuteBatch(claimed, env, before, taken, AfterRun(start).execs, base);
      ContinuesOn(first, taken, run', overrides, threw);
      count := |claimed|;
      PolledLater(taken, run', |start|, env, queue, workerId, leaseMs);
      if !threw {
        BatchAnswers(first, start, taken, run', base, |claimed|, registry.handlers, fence.current, overrides);
      }
    }
  }

  // ---- What the results on runs say of workers ---------------------------

  /** Every retry in the run was decided by the limit of its job's queue. */
  ghost predicate ByQueue(run: seq<Step>, overrides: map<string, RetryLimits>) {
    forall n | 0 <= n < |run| ::
      run[n].Retry? && IsRunning(AfterRun(run[..n]), run[n].id) ==>
        run[n].maxAttempts ==
        LimitsFor(overrides, AfterRun(run[..n]).execs[run[n].id].job.queue).maxAttempts
  }

  function QueueLimit(overrides: map<string, RetryLimits>, queue: string): nat {
    Max(0, LimitsFor(overrides, queue).maxAttempts)
  }

  /** A key enqueued on one queue is given up by the limit of that queue, whatever other queues allow. */
  lemma {:induction false} GivenUpByQueue(run: seq<Step>, overrides: map<string, RetryLimits>, key: string, queue: string)
    requires ByQueue(run, overrides) && EnqueuedOn(run, key, queue)
    ensures GivesUpBy(run, key, QueueLimit(overrides, queue))
  {
    hide AfterRun, LimitsFor;
    if run != [] {
      var n := |run| - 1;
      var before := run[..n];
      assert forall k | 0 <= k < n :: before[k] == run[k] && before[..k] == run[..k];
      GivenUpByQueue(before, overrides, key, queue);
      AlwaysOnQueue(before, key, queue);
    }
  }

  /**
   * With producers that enqueue the key once and on one queue, it is claimed at most as
   * often as that queue's own limit says, and once more for each lease that expired.
   */
  lemma AttemptsWithinOwnLimit(run: seq<Step>, overrides: map<string, RetryLimits>, key: string, queue: string)
    requires ByQueue(run, overrides) && EnqueuedOn(run, key, queue)
    ensures var t := Total(AfterRun(run).ops, key);
            && t.claimed <= Max(QueueLimit(overrides, queue), 1) - 1 + Produced(run, key) + t.expired
            && Work(run, key) <= (3 * QueueLimit(overrides, queue) + 2) * (Produced(run, key) + t.expired)
  {
    hide Total, Produced, Work, After, AfterRun;
    GivenUpByQueue(run, overrides, key, queue);
    AttemptsBounded(run, key, QueueLimit(overrides, queue));
    WorkIsBounded(run, key, QueueLimit(overrides, queue));
  }

  lemma OwnStepEffect(sys: Sys, step: Step, key: string, overrides: map<string, RetryLimits>)
    requires OwnStep(sys, step, overrides, false)
    ensures !EffectOf(sys, step, key).Lost? && !EffectOf(sys, step, key).Accepted? && !EffectOf(sys, step, key).Withdrawn?
  {
    hide After, AttemptsOf;
  }

  /**
   * A worker's pass keeps what the results on runs ask for: retries by the limit of the
   * queue, and, unless a handler threw, no execution lost; it never produces.
   */
  lemma {:induction false} PassKeeps(run: seq<Step>, run': seq<Step>, overrides: map<string, RetryLimits>, mayCrash: bool,
                                     key: string, queue: string)
    requires Continues(run, run', overrides, mayCrash)
    ensures ByQueue(run, overrides) ==> ByQueue(run', overrides)
    ensures EnqueuedOn(run, key, queue) ==> EnqueuedOn(run', key, queue)
    ensures Produced(run', key) == Produced(run, key)
    ensures NoLoss(run, key) && !mayCrash ==> NoLoss(run', key)
    decreases |run'|
  {
    hide AfterRun, LimitsFor, EffectOf;
    if run' == run {
    } else {
      var n := |run'| - 1;
      var before := run'[..n];
      assert forall k | 0 <= k < n :: before[k] == run'[k] && before[..k] == run'[..k];
      PassKeeps(run, before, overrides, mayCrash, key, queue);
      assert OwnStep(AfterRun(before), run'[n], overrides, mayCrash);
      if !mayCrash { OwnStepEffect(AfterRun(before), run'[n], key, overrides); }
    }
  }

  // ---- A transport that does not count attempts --------------------------

  /** A claim, and a handler that asks for a retry when the transport offers no attempt count. */
  function UncountedRound(job: Job, worker: string, until: int, at: int, maxAttempts: int): seq<Op> {
    [Take(job.key, worker, until)] + JobOps(Retryable, 0, maxAttempts, job, worker, at)
  }

  function UncountedRounds(n: nat, job: Job, worker: string, until: int, at: int, maxAttempts: int): seq<Op> {
    if n == 0 then [Enqueue(job, at)]
    else UncountedRounds(n - 1, job, worker, until, at, maxAttempts) + UncountedRound(job, worker, until, at, maxAttempts)
  }

  /**
   * The runtime reads 0 attempts from a transport without attemptsOf, such as the Redis
   * one: a job that always asks for a retry is then claimed without end, whatever its
   * limit, with no lease expired and nothing dead-lettered.
   */
  lemma {:induction false} UncountedNeverGivesUp(n: nat, job: Job, worker: string, until: int, at: int, maxAttempts: int)
    requires maxAttempts >= 1
    ensures var ops := UncountedRounds(n, job, worker, until, at, maxAttempts);
            && job.key in After(ops).pending && After(ops).pending[job.key] == Pending(job, at)
            && job.key !in After(ops).active
            && Total(ops, job.key) == Tally(n + 1, n, 0, n, 0, 0)
  {
    hide After, Total;
    if n == 0 {
      FirstEnqueue(job, at);
    } else {
      UncountedNeverGivesUp(n - 1, job, worker, until, at, maxAttempts);
      var ops := UncountedRounds(n - 1, job, worker, until, at, maxAttempts);
      var take, done, again := Take(job.key, worker, until), Complete(job.key, worker), Enqueue(job, at);
      Extends(ops, take);
      Extends(ops + [take], done);
      Extends(ops + [take] + [done], again);
      assert ops + UncountedRound(job, worker, until, at, maxAttempts) == ops + [take] + [done] + [again];
    }
  }

  lemma FirstEnqueue(job: Job, at: int)
    ensures var ops := [Enqueue(job, at)];
            && job.key in After(ops).pending && After(ops).pending[job.key] == Pending(job, at)
            && job.key !in After(ops).active && Total(ops, job.key) == Tally(1, 0, 0, 0, 0, 0)
  {
    Extends([], Enqueue(job, at));
    assert [] + [Enqueue(job, at)] == [Enqueue(job, at)];
  }
}
