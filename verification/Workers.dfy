/**
 * Many workers on one queue (packages/queue/src/runtime.ts): every interleaving of
 * producers, workers that may crash, lease releases and retries, as runs of one machine
 * over the operations of the queue.
 */
module Workers {
  import opened Basics
  import opened Queue

  /** A claimed job in the hands of a worker; requeueing once it has completed it in order to retry. */
  datatype Exec = Exec(job: Job, worker: string, requeueing: bool)

  /** What has happened to the queue, and the executions in flight. */
  datatype Sys = Sys(ops: seq<Op>, execs: map<nat, Exec>)

  const START := Sys([], map[])

  datatype Step =
    | Produce(job: Job, availableAt: int)
    | Withdraw(key: string)
    | ReleaseLeases(now: int)
    | ClaimOne(id: nat, key: string, worker: string, until: int)
    | Extend(key: string, worker: string, until: int)
    | Succeed(id: nat)
    | Retry(id: nat, maxAttempts: int)
    | Requeue(id: nat, availableAt: int)
    | Fail(id: nat)
    | Crash(id: nat)

  predicate IsRunning(sys: Sys, id: nat) { id in sys.execs && !sys.execs[id].requeueing }
  predicate IsRequeueing(sys: Sys, id: nat) { id in sys.execs && sys.execs[id].requeueing }

  /** The operations a step performs on the queue: none when it is not enabled. */
  function Emits(sys: Sys, step: Step): seq<Op> {
    match step
    case Produce(job, availableAt) => [Enqueue(job, availableAt)]
    case Withdraw(key) => [Remove(key)]
    case ReleaseLeases(now) => [Release(now)]
    case ClaimOne(id, key, worker, until) =>
      if id !in sys.execs && key in After(sys.ops).pending then [Take(key, worker, until)] else []
    case Extend(key, worker, until) => [Beat(key, worker, until)]
    case Succeed(id) =>
      if IsRunning(sys, id) then [Complete(sys.execs[id].job.key, sys.execs[id].worker)] else []
    case Retry(id, maxAttempts) =>
      if !IsRunning(sys, id) then []
      else if AttemptsOf(After(sys.ops), sys.execs[id].job.key) >= maxAttempts then [Bury(sys.execs[id].job.key)]
      else [Complete(sys.execs[id].job.key, sys.execs[id].worker)]
    case Requeue(id, availableAt) =>
      if IsRequeueing(sys, id) then [Enqueue(sys.execs[id].job, availableAt)] else []
    case Fail(id) =>
      if IsRunning(sys, id) then [Bury(sys.execs[id].job.key)] else []
    case Crash(_) => []
  }

  function ExecsAfter(sys: Sys, step: Step): map<nat, Exec> {
    match step
    case ClaimOne(id, key, worker, _) =>
      if id !in sys.execs && key in After(sys.ops).pending
      then sys.execs[id := Exec(After(sys.ops).pending[key].job, worker, false)] else sys.execs
    case Succeed(id) => if IsRunning(sys, id) then sys.execs - {id} else sys.execs
    case Retry(id, maxAttempts) =>
      if !IsRunning(sys, id) then sys.execs
      else if AttemptsOf(After(sys.ops), sys.execs[id].job.key) >= maxAttempts then sys.execs - {id}
      else sys.execs[id := sys.execs[id].(requeueing := true)]
    case Requeue(id, _) => if IsRequeueing(sys, id) then sys.execs - {id} else sys.execs
    case Fail(id) => if IsRunning(sys, id) then sys.execs - {id} else sys.execs
    case Crash(id) => sys.execs - {id}
    case _ => sys.execs
  }

  function Next(sys: Sys, step: Step): Sys {
    Sys(sys.ops + Emits(sys, step), ExecsAfter(sys, step))
  }

  function AfterRun(run: seq<Step>): Sys {
    if run == [] then START else Next(AfterRun(run[..|run| - 1]), run[|run| - 1])
  }

  /** How often producers had the key accepted, retries not counted. */
  function Produced(run: seq<Step>, key: string): nat {
    if run == [] then 0
    else
      var before, step := run[..|run| - 1], run[|run| - 1];
      Produced(before, key)
      + One(step.Produce? && step.job.key == key && !Live(After(AfterRun(before).ops), key))
  }

  // ---- The state of one key ----------------------------------------------

  function RunningIds(execs: map<nat, Exec>, key: string): set<nat> {
    set id | id in execs && execs[id].job.key == key && !execs[id].requeueing
  }

  function RequeueingIds(execs: map<nat, Exec>, key: string): set<nat> {
    set id | id in execs && execs[id].job.key == key && execs[id].requeueing
  }

  /** One key: pending or not, executions running and requeueing, claims and expirations so far. */
  datatype View = View(pending: nat, running: nat, requeueing: nat, claimed: nat, expired: nat)

  function ViewOf(sys: Sys, key: string): View {
    View(One(key in After(sys.ops).pending), |RunningIds(sys.execs, key)|, |RequeueingIds(sys.execs, key)|,
         Total(sys.ops, key).claimed, Total(sys.ops, key).expired)
  }

  /** What a step did to a key. */
  datatype Effect =
    | Untouched | Accepted | Expiry | Claim | Finish | Decide | Resubmit(accepted: bool) | Lost | Withdrawn

  ghost predicate Shows(v: View, v': View, e: Effect) {
    match e
    case Untouched => v' == v
    case Accepted => v.pending == 0 && v' == v.(pending := 1)
    case Expiry => v.pending == 0 && v' == v.(pending := 1, expired := v.expired + 1)
    case Claim => v.pending == 1 && v' == v.(pending := 0, running := v.running + 1, claimed := v.claimed + 1)
    case Finish => v.running > 0 && (v'.pending == v.pending || v'.pending == 0) && v' == v.(pending := v'.pending, running := v.running - 1)
    case Decide => v.running > 0 && v' == v.(running := v.running - 1, requeueing := v.requeueing + 1)
    case Resubmit(accepted) =>
      v.requeueing > 0 && (accepted ==> v.pending == 0)
      && v' == v.(pending := if accepted then 1 else v.pending, requeueing := v.requeueing - 1)
    case Lost =>
      (v.running > 0 && v' == v.(running := v.running - 1))
      || (v.requeueing > 0 && v' == v.(requeueing := v.requeueing - 1))
    case Withdrawn => v.pending == 1 && v' == v.(pending := 0)
  }

  function EffectOf(sys: Sys, step: Step, key: string): Effect {
    var s := After(sys.ops);
    match step
    case Produce(job, _) => if job.key == key && !Live(s, key) then Accepted else Untouched
    case Withdraw(k) => if k == key && key in s.pending then Withdrawn else Untouched
    case ReleaseLeases(now) => if Expired(s, key, now) then Expiry else Untouched
    case ClaimOne(id, k, _, _) => if k == key && id !in sys.execs && k in s.pending then Claim else Untouched
    case Extend(_, _, _) => Untouched
    case Succeed(id) => if IsRunning(sys, id) && sys.execs[id].job.key == key then Finish else Untouched
    case Retry(id, maxAttempts) =>
      if IsRunning(sys, id) && sys.execs[id].job.key == key
      then if AttemptsOf(s, key) >= maxAttempts then Finish else Decide
      else Untouched
    case Requeue(id, _) =>
      if IsRequeueing(sys, id) && sys.execs[id].job.key == key then Resubmit(!Live(s, key)) else Untouched
    case Fail(id) => if IsRunning(sys, id) && sys.execs[id].job.key == key then Finish else Untouched
    case Crash(id) => if id in sys.execs && sys.execs[id].job.key == key then Lost else Untouched
  }

  lemma IdsWithout(execs: map<nat, Exec>, id: nat, key: string)
    requires id in execs
    ensures |RunningIds(execs - {id}, key)| ==
            |RunningIds(execs, key)| - One(execs[id].job.key == key && !execs[id].requeueing)
    ensures |RequeueingIds(execs - {id}, key)| ==
            |RequeueingIds(execs, key)| - One(execs[id].job.key == key && execs[id].requeueing)
  {
    hide One;
    assert RunningIds(execs - {id}, key) == RunningIds(execs, key) - {id};
    assert RequeueingIds(execs - {id}, key) == RequeueingIds(execs, key) - {id};
    SetWithout(RunningIds(execs, key), id);
    SetWithout(RequeueingIds(execs, key), id);
  }

  lemma SetWithout(s: set<nat>, id: nat)
    ensures |s - {id}| == |s| - One(id in s)
  {
  }

  lemma IdsWith(execs: map<nat, Exec>, id: nat, e: Exec, key: string)
    requires id !in execs
    ensures |RunningIds(execs[id := e], key)| ==
            |RunningIds(execs, key)| + One(e.job.key == key && !e.requeueing)
    ensures |RequeueingIds(execs[id := e], key)| ==
            |RequeueingIds(execs, key)| + One(e.job.key == key && e.requeueing)
  {
    assert execs[id := e] - {id} == execs;
    IdsWithout(execs[id := e], id, key);
  }

  lemma IdsTurned(execs: map<nat, Exec>, id: nat, key: string)
    requires id in execs && !execs[id].requeueing
    ensures var execs' := execs[id := execs[id].(requeueing := true)];
            && |RunningIds(execs', key)| == |RunningIds(execs, key)| - One(execs[id].job.key == key)
            && |RequeueingIds(execs', key)| == |RequeueingIds(execs, key)| + One(execs[id].job.key == key)
  {
    var e := execs[id].(requeueing := true);
    IdsWithout(execs, id, key);
    IdsWith(execs - {id}, id, e, key);
    assert (execs - {id})[id := e] == execs[id := e];
  }

  /** Whether the key is pending after one operation, and what was counted. */
  lemma OpShown(ops: seq<Op>, op: Op, key: string)
    ensures var s, s' := After(ops), After(ops + [op]);
            && !(key in s.pending && key in s.active)
            && (key in s'.pending <==>
                  Accepts(s, op, key) || Expires(s, op, key) ||
                  (key in s.pending && !Claims(s, op, key) && !Removes(s, op, key) && !Buries(s, op, key)))
            && (key in s.pending ==> s.pending[key].job.key == key)
            && Total(ops + [op], key).claimed == Total(ops, key).claimed + One(Claims(s, op, key))
            && Total(ops + [op], key).expired == Total(ops, key).expired + One(Expires(s, op, key))
  {
    hide After, Total, AttemptsOf;
    Conservation(ops, key);
    Extends(ops, op);
    PendingAfter(After(ops), op, key);
  }

  lemma PendingAfter(s: State, op: Op, key: string)
    requires !(key in s.pending && key in s.active)
    ensures key in Apply(s, op).pending <==>
              Accepts(s, op, key) || Expires(s, op, key) ||
              (key in s.pending && !Claims(s, op, key) && !Removes(s, op, key) && !Buries(s, op, key))
  {
  }

  lemma OnePlace(ops: seq<Op>, key: string)
    ensures var s := After(ops); !(key in s.pending && key in s.active)
    ensures var s := After(ops); key in s.pending ==> s.pending[key].job.key == key
  {
    Conservation(ops, key);
  }

  lemma NoOp(ops: seq<Op>)
    ensures ops + [] == ops
  {
  }

  lemma EffectShown(sys: Sys, step: Step, key: string)
    ensures Shows(ViewOf(sys, key), ViewOf(Next(sys, step), key), EffectOf(sys, step, key))
  {
    hide *;
    if step.Succeed? || step.Fail? || step.Retry? || step.Requeue? {
      FinishShown(sys, step, key);
    } else {
      OtherShown(sys, step, key);
    }
  }

  lemma OtherShown(sys: Sys, step: Step, key: string)
    requires !step.Succeed? && !step.Fail? && !step.Retry? && !step.Requeue?
    ensures Shows(ViewOf(sys, key), ViewOf(Next(sys, step), key), EffectOf(sys, step, key))
  {
    hide After, Total, RunningIds, RequeueingIds, Balanced, AttemptsOf;
    NoOp(sys.ops);
    OnePlace(sys.ops, key);
    match step
    case Produce(job, at) => OpShown(sys.ops, Enqueue(job, at), key);
    case Withdraw(k) => OpShown(sys.ops, Remove(k), key);
    case ReleaseLeases(now) => OpShown(sys.ops, Release(now), key);
    case Extend(k, w, until) => OpShown(sys.ops, Beat(k, w, until), key);
    case ClaimOne(id, k, w, until) =>
      if id !in sys.execs && k in After(sys.ops).pending {
        OnePlace(sys.ops, k);
        OpShown(sys.ops, Take(k, w, until), key);
        IdsWith(sys.execs, id, Exec(After(sys.ops).pending[k].job, w, false), key);
      }
    case Crash(id) =>
      if id in sys.execs {
        IdsWithout(sys.execs, id, key);
      } else {
        assert sys.execs - {id} == sys.execs;
      }
  }

  lemma FinishShown(sys: Sys, step: Step, key: string)
    requires step.Succeed? || step.Fail? || step.Retry? || step.Requeue?
    ensures Shows(ViewOf(sys, key), ViewOf(Next(sys, step), key), EffectOf(sys, step, key))
  {
    hide After, Total, RunningIds, RequeueingIds, Balanced, AttemptsOf;
    NoOp(sys.ops);
    OnePlace(sys.ops, key);
    if IsRunning(sys, step.id) && !step.Requeue? {
      OpShown(sys.ops, Emits(sys, step)[0], key);
      IdsWithout(sys.execs, step.id, key);
      IdsTurned(sys.execs, step.id, key);
    } else if IsRequeueing(sys, step.id) && step.Requeue? {
      OpShown(sys.ops, Emits(sys, step)[0], key);
      IdsWithout(sys.execs, step.id, key);
    }
  }

  // ---- Attempts and work are bounded -------------------------------------

  /** The step does not put off giving up on the key beyond most attempts. */
  predicate RetriesBy(sys: Sys, step: Step, key: string, most: nat) {
    step.Retry? && IsRunning(sys, step.id) && sys.execs[step.id].job.key == key ==> step.maxAttempts <= most
  }

  /** No execution of the key is given more than most attempts; other keys have limits of their own. */
  predicate GivesUpBy(run: seq<Step>, key: string, most: nat) {
    run == [] || (GivesUpBy(run[..|run| - 1], key, most)
                  && RetriesBy(AfterRun(run[..|run| - 1]), run[|run| - 1], key, most))
  }

  /** How much a key can still do: attempts left, weighed by how far each piece of work is from its end. */
  function Left(v: View, most: nat): nat { if v.claimed < most then most - v.claimed else 0 }

  function Times(a: nat, n: nat): nat { a * n }

  function RunningWeight(left: nat): nat { if left == 0 then 1 else 3 * left + 4 }

  function Potential(v: View, most: nat): nat {
    var left := Left(v, most);
    Times(3 * left + 2, v.pending) + Times(3 * left + 3, v.requeueing) + Times(RunningWeight(left), v.running)
  }

  /** The steps that moved a key, besides its arrivals and expirations. */
  function Work(run: seq<Step>, key: string): nat {
    if run == [] then 0
    else
      var before, step := run[..|run| - 1], run[|run| - 1];
      var e := EffectOf(AfterRun(before), step, key);
      Work(before, key) + One(!e.Untouched? && !e.Accepted? && !e.Expiry?)
  }

  ghost predicate Bounds(v: View, produced: nat, work: nat, most: nat) {
    && v.pending + v.requeueing + v.running <= produced + v.expired
    && v.claimed + v.pending + v.requeueing <= Max(most, 1) - 1 + produced + v.expired
    && work + Potential(v, most) <= Times(3 * most + 2, produced + v.expired)
  }

  lemma Scaled(a: nat, b: nat, n: nat)
    requires a <= b
    ensures Times(a, n) <= Times(b, n) && Times(b, n + 1) == Times(b, n) + b && Times(b, 0) == 0
  {
  }

  /** Every step that moves a key uses up potential; an arrival or expiration gives it one job's worth. */
  lemma PotentialFalls(v: View, v': View, e: Effect, most: nat)
    requires Shows(v, v', e) && (e.Decide? ==> v.claimed < most)
    ensures e.Untouched? ==> Potential(v', most) == Potential(v, most)
    ensures e.Accepted? || e.Expiry? ==> Potential(v', most) <= Potential(v, most) + 3 * most + 2
    ensures !e.Untouched? && !e.Accepted? && !e.Expiry? ==> Potential(v', most) < Potential(v, most)
  {
    hide Times;
    var left, left' := Left(v, most), Left(v', most);
    if e.Claim? {
      Scaled(3 * left' + 2, 3 * left + 2, 0);
      Scaled(3 * left' + 3, 3 * left + 3, v.requeueing);
      Scaled(RunningWeight(left'), RunningWeight(left), v.running);
      Scaled(0, RunningWeight(left'), v.running);
    } else {
      assert left' == left <= most;
      Scaled(0, 3 * left + 2, 0);
      Scaled(0, 3 * left + 3, Min(v.requeueing, v'.requeueing));
      Scaled(0, RunningWeight(left), Min(v.running, v'.running));
      Scaled(0, 3 * left + 2, Min(v.pending, v'.pending));
    }
  }

  lemma BoundsStep(v: View, v': View, e: Effect, produced: nat, work: nat, most: nat)
    requires Bounds(v, produced, work, most) && Shows(v, v', e)
    requires e.Decide? ==> v.claimed < most
    ensures Bounds(v', produced + One(e.Accepted?),
                   work + One(!e.Untouched? && !e.Accepted? && !e.Expiry?), most)
  {
    hide Potential, Times;
    PotentialFalls(v, v', e, most);
    Scaled(0, 3 * most + 2, produced + v.expired);
  }

  /** In every run, what a key can cause is bounded by its arrivals and lease expirations. */
  lemma {:induction false} BoundsHold(run: seq<Step>, key: string, most: nat)
    requires GivesUpBy(run, key, most)
    ensures Bounds(ViewOf(AfterRun(run), key), Produced(run, key), Work(run, key), most)
  {
    hide Bounds, EffectOf, ViewOf, Next;
    if run == [] {
      BoundsStart(key, most);
    } else {
      var before, step := run[..|run| - 1], run[|run| - 1];
      var sys := AfterRun(before);
      BoundsHold(before, key, most);
      EffectShown(sys, step, key);
      DecidesEarly(sys, step, key, most);
      BoundsStep(ViewOf(sys, key), ViewOf(Next(sys, step), key), EffectOf(sys, step, key),
                 Produced(before, key), Work(before, key), most);
    }
  }

  lemma BoundsStart(key: string, most: nat)
    ensures Bounds(ViewOf(START, key), 0, 0, most)
  {
    assert RunningIds(map[], key) == {} && RequeueingIds(map[], key) == {};
  }

  lemma DecidesEarly(sys: Sys, step: Step, key: string, most: nat)
    requires RetriesBy(sys, step, key, most)
    ensures var e := EffectOf(sys, step, key);
            && (e.Decide? ==> ViewOf(sys, key).claimed < most)
            && (e.Accepted? <==> step.Produce? && step.job.key == key && !Live(After(sys.ops), key))
  {
    Conservation(sys.ops, key);
  }

  /** Claims never exceed the key's own attempt limit plus lease expirations, if producers enqueue it once. */
  lemma AttemptsBounded(run: seq<Step>, key: string, most: nat)
    requires GivesUpBy(run, key, most)
    ensures var t, produced := Total(AfterRun(run).ops, key), Produced(run, key);
            && t.claimed <= Max(most, 1) - 1 + produced + t.expired
            && AttemptsOf(After(AfterRun(run).ops), key) == t.claimed
            && (produced <= 1 ==> t.claimed <= Max(most, 1) + t.expired)
  {
    hide Potential, Work, Produced, After, Total, AfterRun;
    BoundsHold(run, key, most);
    Conservation(AfterRun(run).ops, key);
  }

  /**
   * Nothing runs for ever: whatever workers do, crash or not, the steps that move a key
   * are at most 3 most + 2 for each arrival and each lease expiration.
   */
  lemma WorkIsBounded(run: seq<Step>, key: string, most: nat)
    requires GivesUpBy(run, key, most)
    ensures Work(run, key) <= (3 * most + 2) * (Produced(run, key) + Total(AfterRun(run).ops, key).expired)
  {
    hide Potential, Work, Produced, After, Total, AfterRun;
    BoundsHold(run, key, most);
  }

  ghost predicate Occupies(v: View, produced: nat) {
    v.pending + v.requeueing + v.running <= produced + v.expired
  }

  /**
   * A key is pending or in flight at most once for each arrival and each lease expiration:
   * one enqueued once whose lease never ran out is never executed twice at once.
   */
  lemma {:induction false} NeverTwiceAtOnce(run: seq<Step>, key: string)
    ensures var v := ViewOf(AfterRun(run), key);
            && v.pending + v.requeueing + v.running <= Produced(run, key) + v.expired
            && (Produced(run, key) <= 1 && v.expired == 0 ==> |RunningIds(AfterRun(run).execs, key)| <= 1)
  {
    hide EffectOf, ViewOf, Next;
    if run == [] {
      BoundsStart(key, 0);
    } else {
      var before, step := run[..|run| - 1], run[|run| - 1];
      var sys := AfterRun(before);
      NeverTwiceAtOnce(before, key);
      EffectShown(sys, step, key);
      AcceptedMeans(sys, step, key);
      OccupiesStep(ViewOf(sys, key), ViewOf(Next(sys, step), key), EffectOf(sys, step, key), Produced(before, key));
    }
    RunningShown(AfterRun(run), key);
  }

  lemma RunningShown(sys: Sys, key: string)
    ensures ViewOf(sys, key).running == |RunningIds(sys.execs, key)|
  {
  }

  lemma AcceptedMeans(sys: Sys, step: Step, key: string)
    ensures EffectOf(sys, step, key).Accepted? <==>
            step.Produce? && step.job.key == key && !Live(After(sys.ops), key)
  {
  }

  lemma OccupiesStep(v: View, v': View, e: Effect, produced: nat)
    requires Occupies(v, produced) && Shows(v, v', e)
    ensures Occupies(v', produced + One(e.Accepted?))
  {
  }

  lemma Continue(run: seq<Step>, step: Step)
    ensures AfterRun(run + [step]) == Next(AfterRun(run), step)
    ensures forall key :: Produced(run + [step], key) ==
              Produced(run, key) + One(step.Produce? && step.job.key == key && !Live(After(AfterRun(run).ops), key))
  {
    assert (run + [step])[..|run|] == run;
  }

  /** After one expiration it can be: the first worker still runs the job when a second one claims it. */
  lemma TwiceAfterExpiry(job: Job, first: string, second: string, at: int, until: int, later: int) returns (run: seq<Step>)
    ensures var sys := AfterRun(run);
            && Produced(run, job.key) == 1 && Total(sys.ops, job.key).expired == 1
            && sys.execs == map[0 := Exec(job, first, false), 1 := Exec(job, second, false)]
            && RunningIds(sys.execs, job.key) == {0, 1}
  {
    hide AfterRun, Produced, After, Total;
    var r0: seq<Step> := [];
    assert AfterRun(r0) == START && Produced(r0, job.key) == 0 by { NoSteps(job.key); }
    var o0: seq<Op> := [];
    NoOps(job.key);
    Continue(r0, Produce(job, at));
    Extends(o0, Enqueue(job, at));
    var r1 := r0 + [Produce(job, at)];
    var o1 := o0 + [Enqueue(job, at)];
    Continue(r1, ClaimOne(0, job.key, first, until));
    Extends(o1, Take(job.key, first, until));
    var r2 := r1 + [ClaimOne(0, job.key, first, until)];
    var o2 := o1 + [Take(job.key, first, until)];
    Continue(r2, ReleaseLeases(until));
    Extends(o2, Release(until));
    ExpiredComeBack(o2, job.key, until, until);
    var r3 := r2 + [ReleaseLeases(until)];
    var o3 := o2 + [Release(until)];
    Continue(r3, ClaimOne(1, job.key, second, later));
    Extends(o3, Take(job.key, second, later));
    run := r3 + [ClaimOne(1, job.key, second, later)];
  }

  lemma NoSteps(key: string)
    ensures AfterRun([]) == START && Produced([], key) == 0
  {
  }

  lemma NoOps(key: string)
    ensures After([]) == EMPTY && Total([], key).expired == 0
  {
  }

  // ---- Jobs settle -------------------------------------------------------

  /** A lease on the key is in the hands of a running execution of its worker. */
  ghost predicate Attended(sys: Sys, key: string) {
    var s := After(sys.ops);
    key in s.active ==>
      exists id :: IsRunning(sys, id) && sys.execs[id].job.key == key && sys.execs[id].worker == s.active[key].worker
  }

  /** No execution of the key crashed or was abandoned. */
  predicate NoLoss(run: seq<Step>, key: string) {
    run == [] || (NoLoss(run[..|run| - 1], key)
                  && !EffectOf(AfterRun(run[..|run| - 1]), run[|run| - 1], key).Lost?)
  }

  lemma ActiveAfter(ops: seq<Op>, op: Op, key: string)
    requires key in After(ops + [op]).active && !Claims(After(ops), op, key)
    ensures var s, s' := After(ops), After(ops + [op]);
            && key in s.active && s'.active[key].worker == s.active[key].worker
            && !Completes(s, op, key) && !Buries(s, op, key)
  {
    Extends(ops, op);
    Conservation(ops, key);
  }

  lemma AttendedStep(sys: Sys, step: Step, key: string)
    requires Attended(sys, key) && !EffectOf(sys, step, key).Lost?
    ensures Attended(Next(sys, step), key)
  {
    hide After, Claims, Completes, Buries;
    var sys', ops := Next(sys, step), Emits(sys, step);
    NoOp(sys.ops);
    if key in After(sys'.ops).active {
      if ops != [] && Claims(After(sys.ops), ops[0], key) {
        ClaimAttended(sys, step, key);
      } else {
        if ops != [] {
          assert ops == [ops[0]];
          ActiveAfter(sys.ops, ops[0], key);
        }
        var id :| IsRunning(sys, id) && sys.execs[id].job.key == key
                  && sys.execs[id].worker == After(sys.ops).active[key].worker;
        HolderStays(sys, step, key, id);
        assert IsRunning(sys', id);
      }
    }
  }

  lemma ClaimAttended(sys: Sys, step: Step, key: string)
    requires Emits(sys, step) != [] && Claims(After(sys.ops), Emits(sys, step)[0], key)
    ensures Attended(Next(sys, step), key)
  {
    Conservation(sys.ops, key);
    Extends(sys.ops, Emits(sys, step)[0]);
    var sys' := Next(sys, step);
    assert step.ClaimOne? && IsRunning(sys', step.id);
  }

  lemma HolderStays(sys: Sys, step: Step, key: string, id: nat)
    requires key in After(sys.ops).active && IsRunning(sys, id) && sys.execs[id].job.key == key
    requires sys.execs[id].worker == After(sys.ops).active[key].worker
    requires !EffectOf(sys, step, key).Lost?
    requires Emits(sys, step) != [] ==>
               !Completes(After(sys.ops), Emits(sys, step)[0], key) && !Buries(After(sys.ops), Emits(sys, step)[0], key)
    ensures id in ExecsAfter(sys, step) && ExecsAfter(sys, step)[id] == sys.execs[id]
  {
    hide After, AttemptsOf;
  }

  lemma {:induction false} AlwaysAttended(run: seq<Step>, key: string)
    requires NoLoss(run, key)
    ensures Attended(AfterRun(run), key)
  {
    hide Attended, EffectOf, Next;
    if run == [] {
      assert Attended(START, key) by { StartAttended(key); }
    } else {
      AlwaysAttended(run[..|run| - 1], key);
      AttendedStep(AfterRun(run[..|run| - 1]), run[|run| - 1], key);
    }
  }

  lemma StartAttended(key: string)
    ensures Attended(START, key)
  {
  }

  lemma LiveSomewhere(ops: seq<Op>, key: string)
    ensures Live(After(ops), key) <==> key in After(ops).pending || key in After(ops).active
  {
  }

  ghost predicate InFlight(sys: Sys, key: string) {
    exists id :: id in sys.execs && sys.execs[id].job.key == key
  }

  /** A running execution: whatever its handler returns, the key is moved. */
  ghost predicate CanEnd(sys: Sys, key: string, id: nat) {
    && EffectOf(sys, Succeed(id), key).Finish? && EffectOf(sys, Fail(id), key).Finish?
    && forall most :: var e := EffectOf(sys, Retry(id, most), key); e.Finish? || e.Decide?
  }

  /** A retry can be enqueued again, at any time. */
  ghost predicate CanResubmit(sys: Sys, key: string, id: nat) {
    forall at :: EffectOf(sys, Requeue(id, at), key).Resubmit?
  }

  /** A worker that serves the queue can claim the key from the time it is due. */
  ghost predicate CanClaim(sys: Sys, key: string) {
    var s := After(sys.ops);
    && key in s.pending
    && (forall now | s.pending[key].availableAt <= now :: Eligible(s, key, s.pending[key].job.queue, now))
    && (forall id, worker, until | id !in sys.execs :: EffectOf(sys, ClaimOne(id, key, worker, until), key).Claim?)
  }

  /**
   * While a key is live, or an execution of it is in flight, some worker can move it on;
   * by WorkIsBounded that happens only so often.
   */
  lemma CanProceed(run: seq<Step>, key: string)
    requires NoLoss(run, key)
    requires Live(After(AfterRun(run).ops), key) || InFlight(AfterRun(run), key)
    ensures var sys := AfterRun(run);
            (exists id :: CanEnd(sys, key, id)) || (exists id :: CanResubmit(sys, key, id)) || CanClaim(sys, key)
  {
    hide After, AttemptsOf, Live;
    var sys := AfterRun(run);
    AlwaysAttended(run, key);
    LiveSomewhere(sys.ops, key);
    if id :| IsRunning(sys, id) && sys.execs[id].job.key == key {
      assert CanEnd(sys, key, id);
    } else if id :| IsRequeueing(sys, id) && sys.execs[id].job.key == key {
      assert CanResubmit(sys, key, id);
    } else {
      assert forall id | id in sys.execs :: IsRunning(sys, id) || IsRequeueing(sys, id);
      assert CanClaim(sys, key);
    }
  }

  lemma FreshId(execs: map<nat, Exec>) returns (id: nat)
    ensures id !in execs
  {
    id := AboveAll(execs.Keys);
  }

  lemma {:induction false} AboveAll(ids: set<nat>) returns (id: nat)
    ensures forall other | other in ids :: other < id
  {
    id := 0;
    if ids != {} {
      var one :| one in ids;
      var rest := AboveAll(ids - {one});
      id := Max(rest, one + 1);
      assert forall other | other in ids && other != one :: other in ids - {one};
    }
  }

  /** Once nothing is pending or in flight, every job accepted was completed, removed or dead-lettered. */
  lemma EveryJobSettles(run: seq<Step>, key: string)
    requires NoLoss(run, key)
    requires key !in After(AfterRun(run).ops).pending && !InFlight(AfterRun(run), key)
    ensures var s, t := After(AfterRun(run).ops), Total(AfterRun(run).ops, key);
            !Live(s, key) && t.accepted == t.completed + t.removed + t.buried
  {
    hide After, Total;
    AlwaysAttended(run, key);
    Conservation(AfterRun(run).ops, key);
  }

  // ---- All at once -------------------------------------------------------

  /** None of these further steps is an arrival or an expiration of the key. */
  predicate Quiet(run: seq<Step>, more: seq<Step>, key: string) {
    more == [] ||
    (Quiet(run, more[..|more| - 1], key)
     && var e := EffectOf(AfterRun(run + more[..|more| - 1]), more[|more| - 1], key); !e.Accepted? && !e.Expiry?)
  }

  /** No step of a worker can move the key. */
  ghost predicate Stuck(sys: Sys, key: string) {
    forall step :: var e := EffectOf(sys, step, key); !e.Claim? && !e.Finish? && !e.Decide? && !e.Resubmit?
  }

  ghost predicate Settled(sys: Sys, key: string) {
    var t := Total(sys.ops, key);
    && !Live(After(sys.ops), key) && !InFlight(sys, key)
    && t.accepted == t.completed + t.removed + t.buried
  }

  lemma WorkNext(run: seq<Step>, more: seq<Step>, key: string)
    requires more != []
    ensures var before, step := run + more[..|more| - 1], more[|more| - 1];
            && AfterRun(run + more) == Next(AfterRun(before), step)
            && Work(run + more, key) == Work(before, key)
               + One(!EffectOf(AfterRun(before), step, key).Untouched? && !EffectOf(AfterRun(before), step, key).Accepted?
                     && !EffectOf(AfterRun(before), step, key).Expiry?)
    ensures forall most: nat :: GivesUpBy(run + more, key, most) ==>
              GivesUpBy(run + more[..|more| - 1], key, most)
              && RetriesBy(AfterRun(run + more[..|more| - 1]), more[|more| - 1], key, most)
  {
    var whole := run + more;
    assert whole[..|whole| - 1] == run + more[..|more| - 1] && whole[|whole| - 1] == more[|more| - 1];
  }

  lemma {:induction false} QuietFalls(run: seq<Step>, more: seq<Step>, key: string, most: nat)
    requires GivesUpBy(run + more, key, most) && Quiet(run, more, key)
    ensures Work(run + more, key) + Potential(ViewOf(AfterRun(run + more), key), most)
            <= Work(run, key) + Potential(ViewOf(AfterRun(run), key), most)
    decreases |more|
  {
    hide Potential, EffectOf, ViewOf, Next, Work, AfterRun, GivesUpBy, RetriesBy;
    if more == [] {
      assert run + more == run;
    } else {
      var before, step := run + more[..|more| - 1], more[|more| - 1];
      WorkNext(run, more, key);
      QuietFalls(run, more[..|more| - 1], key, most);
      EffectShown(AfterRun(before), step, key);
      DecidesEarly(AfterRun(before), step, key, most);
      PotentialFalls(ViewOf(AfterRun(before), key), ViewOf(AfterRun(run + more), key),
                     EffectOf(AfterRun(before), step, key), most);
    }
  }

  /**
   * Without further arrivals or expirations every continuation moves a key at most as often
   * as its potential says; and where workers can move it no more, with no execution lost,
   * every job accepted for it has been completed, removed or dead-lettered.
   */
  lemma EveryRunDrains(run: seq<Step>, more: seq<Step>, key: string, most: nat)
    requires GivesUpBy(run + more, key, most) && Quiet(run, more, key)
    ensures Work(run + more, key) <= Work(run, key) + Potential(ViewOf(AfterRun(run), key), most)
    ensures NoLoss(run + more, key) && Stuck(AfterRun(run + more), key) ==> Settled(AfterRun(run + more), key)
  {
    hide Potential, ViewOf, Work, AfterRun, GivesUpBy, After, Total, EffectOf, Live, NoLoss;
    QuietFalls(run, more, key, most);
    if NoLoss(run + more, key) && Stuck(AfterRun(run + more), key) {
      StuckSettles(run + more, key);
    }
  }

  lemma StuckSettles(run: seq<Step>, key: string)
    requires NoLoss(run, key) && Stuck(AfterRun(run), key)
    ensures Settled(AfterRun(run), key)
  {
    hide AfterRun, After, Total, EffectOf, Live, NoLoss;
    var sys := AfterRun(run);
    if Live(After(sys.ops), key) || InFlight(sys, key) {
      CanProceed(run, key);
      NotStuck(sys, key);
      assert false;
    }
    LiveSomewhere(sys.ops, key);
    EveryJobSettles(run, key);
  }

  lemma NotStuck(sys: Sys, key: string)
    requires (exists id :: CanEnd(sys, key, id)) || (exists id :: CanResubmit(sys, key, id)) || CanClaim(sys, key)
    ensures !Stuck(sys, key)
  {
    hide After, EffectOf;
    if id :| CanEnd(sys, key, id) {
      assert EffectOf(sys, Succeed(id), key).Finish?;
    } else if id :| CanResubmit(sys, key, id) {
      assert EffectOf(sys, Requeue(id, 0), key).Resubmit?;
    } else {
      var id := FreshId(sys.execs);
      assert EffectOf(sys, ClaimOne(id, key, "", 0), key).Claim?;
    }
  }

  // ---- The queue of a key ------------------------------------------------

  /** Producers put the key on this queue only. */
  predicate EnqueuedOn(run: seq<Step>, key: string, queue: string) {
    forall n | 0 <= n < |run| :: run[n].Produce? && run[n].job.key == key ==> run[n].job.queue == queue
  }

  predicate OnQueue(sys: Sys, key: string, queue: string) {
    var s := After(sys.ops);
    && (key in s.pending ==> s.pending[key].job.queue == queue)
    && (key in s.active ==> s.active[key].job.queue == queue)
    && forall id | id in sys.execs && sys.execs[id].job.key == key :: sys.execs[id].job.queue == queue
  }

  lemma OpOnQueue(ops: seq<Op>, op: Op, key: string, queue: string)
    requires op.Enqueue? && op.job.key == key ==> op.job.queue == queue
    requires var s := After(ops);
             (key in s.pending ==> s.pending[key].job.queue == queue) && (key in s.active ==> s.active[key].job.queue == queue)
    ensures var s := After(ops + [op]);
             (key in s.pending ==> s.pending[key].job.queue == queue) && (key in s.active ==> s.active[key].job.queue == queue)
  {
    Extends(ops, op);
  }

  lemma OnQueueStep(sys: Sys, step: Step, key: string, queue: string)
    requires OnQueue(sys, key, queue) && (step.Produce? && step.job.key == key ==> step.job.queue == queue)
    ensures OnQueue(Next(sys, step), key, queue)
  {
    hide After, AttemptsOf;
    var ops := Emits(sys, step);
    NoOp(sys.ops);
    if ops != [] {
      assert ops == [ops[0]];
      OpOnQueue(sys.ops, ops[0], key, queue);
    }
    if step.ClaimOne? && step.key in After(sys.ops).pending { OnePlace(sys.ops, step.key); }
  }

  lemma {:induction false} AlwaysOnQueue(run: seq<Step>, key: string, queue: string)
    requires EnqueuedOn(run, key, queue)
    ensures OnQueue(AfterRun(run), key, queue)
  {
    hide OnQueue, Next;
    if run == [] {
      assert OnQueue(START, key, queue) by { StartOnQueue(key, queue); }
    } else {
      var before := run[..|run| - 1];
      assert forall n | 0 <= n < |before| :: before[n] == run[n];
      AlwaysOnQueue(before, key, queue);
      OnQueueStep(AfterRun(before), run[|run| - 1], key, queue);
    }
  }

  lemma StartOnQueue(key: string, queue: string)
    ensures OnQueue(START, key, queue)
  {
  }
}
