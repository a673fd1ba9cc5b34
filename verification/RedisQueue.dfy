/**
 * The Redis transport (packages/queue/src/redis-transport.ts): every call is a program of
 * single Redis commands, any number of calls interleave command by command, and a process
 * may crash between any two commands. Deliveries are accounted for exactly.
 */
module RedisQueue {
  import opened Basics
  import Queue

  type Job = Queue.Job

  /** A queue name and a unique key: one place in each sorted set. */
  type Slot = (string, string)

  datatype Redis = Redis(
    pending: map<Slot, int>, active: map<Slot, int>, dead: map<Slot, int>,
    jobs: map<string, Job>, attempts: map<string, nat>)

  const BATCH: nat := 10
  const STALE_BATCH: nat := 100
  const QUEUES := ["webhook-processing", "workflow-execution", "approval-resume",
                   "outbox-publishing", "cleanup", "sandbox-monitoring"]

  /** Where a call stands: the command it issues next. Lists of keys are consumed from the front. */
  datatype Pc =
    | EnqueueAdd(job: Job, at: int)
    | EnqueueStore(job: Job, added: bool)
    | ClaimScan(queue: string, now: int, until: int)
    | ClaimTake(queue: string, keys: seq<string>, until: int, claimed: seq<Job>)
    | ClaimLease(queue: string, keys: seq<string>, until: int, claimed: seq<Job>)
    | ClaimRead(queue: string, keys: seq<string>, until: int, claimed: seq<Job>)
    | ClaimAttempts(queue: string, keys: seq<string>, until: int, claimed: seq<Job>, job: Job)
    | ClaimCount(queue: string, keys: seq<string>, until: int, claimed: seq<Job>, job: Job, attempts: nat)
    | BeatRead(key: string, until: int)
    | BeatExtend(slot: Slot, until: int)
    | CompleteRead(key: string)
    | CompleteTake(slot: Slot)
    | CompleteAttempts(key: string)
    | CompleteJob(key: string)
    | DeadRead(key: string, at: int)
    | DeadTake(slot: Slot, at: int)
    | DeadAdd(slot: Slot, at: int)
    | DeadAttempts(key: string)
    | RemoveRead(key: string)
    | RemovePending(slot: Slot)
    | RemoveActive(slot: Slot, fromPending: bool)
    | RemoveJob(key: string, fromPending: bool, fromActive: bool)
    | ReleaseScan(queues: seq<string>, now: int, released: nat)
    | ReleaseTake(queues: seq<string>, keys: seq<string>, now: int, released: nat)
    | ReleaseAdd(queues: seq<string>, keys: seq<string>, now: int, released: nat)
    | Returned(result: Result)

  datatype Result =
    | Enqueued(accepted: bool)
    | Claimed(jobs: seq<Job>)
    | Beaten(held: bool)
    | Finished(completed: bool)
    | DeadLettered
    | Removed(fromPending: bool, fromActive: bool)
    | ReleasedCount(count: nat)

  predicate Starts(pc: Pc) {
    || pc.EnqueueAdd? || pc.ClaimScan? || pc.BeatRead? || pc.CompleteRead? || pc.DeadRead? || pc.RemoveRead?
    || (pc.ReleaseScan? && pc.queues == QUEUES && pc.released == 0)
  }

  /** ZRANGEBYSCORE 0 now LIMIT 0 n: the due members of a queue, lowest scores first. */
  ghost predicate Scanned(z: map<Slot, int>, queue: string, now: int, n: nat, keys: seq<string>) {
    && |keys| <= n
    && (forall i | 0 <= i < |keys| :: (queue, keys[i]) in z && 0 <= z[(queue, keys[i])] <= now)
    && (forall i, j | 0 <= i < j < |keys| :: keys[i] != keys[j] && z[(queue, keys[i])] <= z[(queue, keys[j])])
    && (forall key | (queue, key) in z && 0 <= z[(queue, key)] <= now && key !in keys ::
          |keys| == n && forall i | 0 <= i < n :: z[(queue, keys[i])] <= z[(queue, key)])
  }

  function NextClaim(queue: string, keys: seq<string>, until: int, claimed: seq<Job>): (pc: Pc)
    ensures WellFormed(pc) && !pc.ReleaseAdd? && !pc.ClaimLease?
  {
    if keys == [] then Returned(Claimed(claimed)) else ClaimTake(queue, keys, until, claimed)
  }

  function NextRelease(queues: seq<string>, keys: seq<string>, now: int, released: nat): (pc: Pc)
    requires queues != []
    ensures WellFormed(pc) && !pc.ReleaseAdd? && !pc.ClaimLease?
  {
    if keys != [] then ReleaseTake(queues, keys, now, released)
    else if |queues| > 1 then ReleaseScan(queues[1..], now, released)
    else Returned(ReleasedCount(released))
  }

  predicate WellFormed(pc: Pc) {
    && (pc.ClaimTake? || pc.ClaimLease? || pc.ClaimRead? || pc.ClaimAttempts? || pc.ClaimCount? ==> pc.keys != [])
    && (pc.ReleaseScan? || pc.ReleaseTake? || pc.ReleaseAdd? ==> pc.queues != [])
    && (pc.ReleaseTake? || pc.ReleaseAdd? ==> pc.keys != [])
  }

  /** A call that stands somewhere in its program. */
  type Place = pc: Pc | WellFormed(pc) witness Returned(DeadLettered)

  /** The slot a command works on. */
  function SlotOf(pc: Place): Slot {
    match pc
    case EnqueueAdd(job, _) => (job.queue, job.key)
    case ClaimTake(queue, keys, _, _) => (queue, keys[0])
    case ClaimLease(queue, keys, _, _) => (queue, keys[0])
    case BeatExtend(slot, _) => slot
    case CompleteTake(slot) => slot
    case DeadTake(slot, _) => slot
    case DeadAdd(slot, _) => slot
    case RemovePending(slot) => slot
    case RemoveActive(slot, _) => slot
    case ReleaseTake(queues, keys, _, _) => (queues[0], keys[0])
    case ReleaseAdd(queues, keys, _, _) => (queues[0], keys[0])
    case _ => ("", "")
  }

  /** The command a call issues, on the store. */
  function Command(r: Redis, pc: Place): Redis {
    var slot := SlotOf(pc);
    match pc
    case EnqueueAdd(job, at) => r.(pending := r.pending[slot := at])
    case EnqueueStore(job, _) => r.(jobs := r.jobs[job.key := job])
    case ClaimTake(_, _, _, _) => r.(pending := r.pending - {slot})
    case ClaimLease(_, _, until, _) => r.(active := r.active[slot := until])
    case ClaimCount(_, keys, _, _, _, attempts) => r.(attempts := r.attempts[keys[0] := attempts])
    case BeatExtend(_, until) => r.(active := r.active[slot := until])
    case CompleteTake(_) => r.(active := r.active - {slot})
    case CompleteAttempts(key) => r.(attempts := r.attempts - {key})
    case CompleteJob(key) => r.(jobs := r.jobs - {key})
    case DeadTake(_, _) => r.(active := r.active - {slot})
    case DeadAdd(_, at) => r.(dead := r.dead[slot := at])
    case DeadAttempts(key) => r.(attempts := r.attempts - {key})
    case RemovePending(_) => r.(pending := r.pending - {slot})
    case RemoveActive(_, _) => r.(active := r.active - {slot})
    case RemoveJob(key, _, _) => r.(jobs := r.jobs - {key})
    case ReleaseTake(_, _, _, _) => r.(active := r.active - {slot})
    case ReleaseAdd(_, _, now, _) => r.(pending := r.pending[slot := now])
    case _ => r
  }

  predicate Claiming(pc: Pc) {
    pc.ClaimScan? || pc.ClaimTake? || pc.ClaimLease? || pc.ClaimRead? || pc.ClaimAttempts? || pc.ClaimCount?
  }

  predicate Ending(pc: Pc) {
    pc.CompleteRead? || pc.CompleteTake? || pc.CompleteAttempts? || pc.CompleteJob?
    || pc.DeadRead? || pc.DeadTake? || pc.DeadAdd? || pc.DeadAttempts?
  }

  predicate Releasing(pc: Pc) { pc.ReleaseScan? || pc.ReleaseTake? || pc.ReleaseAdd? }

  /** Where a call stands after its command; keys is the answer to a scan. */
  function Continue(r: Redis, pc: Place, keys: seq<string>): Place {
    if Claiming(pc) then ContinueClaim(r, pc, keys)
    else if Releasing(pc) then ContinueRelease(r, pc, keys)
    else if Ending(pc) then ContinueEnd(r, pc)
    else ContinueOther(r, pc)
  }

  function ContinueClaim(r: Redis, pc: Place, keys: seq<string>): Place
    requires Claiming(pc)
  {
    match pc
    case ClaimScan(queue, _, until) => NextClaim(queue, keys, until, [])
    case ClaimTake(queue, rest, until, claimed) =>
      if SlotOf(pc) in r.pending then ClaimLease(queue, rest, until, claimed)
      else NextClaim(queue, rest[1..], until, claimed)
    case ClaimLease(queue, rest, until, claimed) => ClaimRead(queue, rest, until, claimed)
    case ClaimRead(queue, rest, until, claimed) =>
      if rest[0] in r.jobs then ClaimAttempts(queue, rest, until, claimed, r.jobs[rest[0]])
      else NextClaim(queue, rest[1..], until, claimed)
    case ClaimAttempts(queue, rest, until, claimed, job) =>
      ClaimCount(queue, rest, until, claimed, job, if rest[0] in r.attempts then r.attempts[rest[0]] + 1 else 1)
    case ClaimCount(queue, rest, until, claimed, job, _) => NextClaim(queue, rest[1..], until, claimed + [job])
  }

  function ContinueRelease(r: Redis, pc: Place, keys: seq<string>): Place
    requires Releasing(pc)
  {
    match pc
    case ReleaseScan(queues, now, released) => NextRelease(queues, keys, now, released)
    case ReleaseTake(queues, rest, now, released) =>
      if SlotOf(pc) in r.active then ReleaseAdd(queues, rest, now, released)
      else NextRelease(queues, rest[1..], now, released)
    case ReleaseAdd(queues, rest, now, released) => NextRelease(queues, rest[1..], now, released + 1)
  }

  function ContinueEnd(r: Redis, pc: Place): Place
    requires Ending(pc)
  {
    match pc
    case CompleteRead(key) =>
      if key in r.jobs then CompleteTake((r.jobs[key].queue, key)) else Returned(Finished(false))
    case CompleteTake(slot) =>
      if slot in r.active then CompleteAttempts(slot.1) else Returned(Finished(false))
    case CompleteAttempts(key) => CompleteJob(key)
    case CompleteJob(_) => Returned(Finished(true))
    case DeadRead(key, at) =>
      if key in r.jobs then DeadTake((r.jobs[key].queue, key), at) else Returned(DeadLettered)
    case DeadTake(slot, at) => DeadAdd(slot, at)
    case DeadAdd(slot, _) => DeadAttempts(slot.1)
    case DeadAttempts(_) => Returned(DeadLettered)
  }

  function ContinueOther(r: Redis, pc: Place): Place
    requires !Claiming(pc) && !Releasing(pc) && !Ending(pc)
  {
    match pc
    case EnqueueAdd(job, _) => EnqueueStore(job, SlotOf(pc) !in r.pending)
    case EnqueueStore(_, added) => Returned(Enqueued(added))
    case BeatRead(key, until) =>
      if key in r.jobs then BeatExtend((r.jobs[key].queue, key), until) else Returned(Beaten(false))
    case BeatExtend(_, _) => Returned(Beaten(true))
    case RemoveRead(key) =>
      if key in r.jobs then RemovePending((r.jobs[key].queue, key)) else Returned(Removed(false, false))
    case RemovePending(slot) => RemoveActive(slot, slot in r.pending)
    case RemoveActive(slot, fromPending) => RemoveJob(slot.1, fromPending, slot in r.active)
    case RemoveJob(_, fromPending, fromActive) => Returned(Removed(fromPending, fromActive))
    case Returned(_) => pc
  }

  // ---- Runs --------------------------------------------------------------

  datatype Sys = Sys(redis: Redis, calls: map<nat, Place>)

  datatype Step =
    | Call(id: nat, pc: Place)
    | Do(id: nat, keys: seq<string>)
    | Crash(id: nat)

  ghost predicate Answers(sys: Sys, step: Step) {
    match step
    case Call(id, pc) => id !in sys.calls && Starts(pc)
    case Crash(id) => id in sys.calls
    case Do(id, keys) =>
      && id in sys.calls
      && (sys.calls[id].ClaimScan? ==>
            Scanned(sys.redis.pending, sys.calls[id].queue, sys.calls[id].now, BATCH, keys))
      && (sys.calls[id].ReleaseScan? ==>
            Scanned(sys.redis.active, sys.calls[id].queues[0], sys.calls[id].now, STALE_BATCH, keys))
  }

  function Next(sys: Sys, step: Step): Sys {
    match step
    case Call(id, pc) => sys.(calls := sys.calls[id := pc])
    case Crash(id) => sys.(calls := sys.calls - {id})
    case Do(id, keys) =>
      if id in sys.calls
      then Sys(Command(sys.redis, sys.calls[id]), sys.calls[id := Continue(sys.redis, sys.calls[id], keys)])
      else sys
  }

  const START := Sys(Redis(map[], map[], map[], map[], map[]), map[])

  function AfterRun(run: seq<Step>): Sys {
    if run == [] then START else Next(AfterRun(run[..|run| - 1]), run[|run| - 1])
  }

  /** The runs in which every step is one the store and the calls allow. */
  ghost predicate IsRun(run: seq<Step>) {
    run == [] || (IsRun(run[..|run| - 1]) && Answers(AfterRun(run[..|run| - 1]), run[|run| - 1]))
  }

  // ---- What happened to one slot -----------------------------------------

  /**
   * accepted: additions to pending by enqueue; merged: releases that found the slot pending
   * again; lost, stranded: crashes between the two commands of a release, of a claim;
   * leased: additions to active by claims, renewed: claims that found it active already;
   * revived: additions to active by heartbeats; the rest are removals by each kind of call.
   */
  datatype Tally = Tally(
    accepted: nat, claimed: nat, removed: nat, released: nat, merged: nat, lost: nat,
    leased: nat, renewed: nat, stranded: nat, revived: nat, completed: nat, buried: nat, withdrawn: nat)

  const NOTHING := Tally(0, 0, 0, 0, 0, 0, 0, 0, 0, 0, 0, 0, 0)

  function DoTally(t: Tally, r: Redis, pc: Place): Tally {
    var slot := SlotOf(pc);
    match pc
    case EnqueueAdd(_, _) => if slot in r.pending then t else t.(accepted := t.accepted + 1)
    case ClaimTake(_, _, _, _) => if slot in r.pending then t.(claimed := t.claimed + 1) else t
    case ClaimLease(_, _, _, _) =>
      if slot in r.active then t.(renewed := t.renewed + 1) else t.(leased := t.leased + 1)
    case BeatExtend(_, _) => if slot in r.active then t else t.(revived := t.revived + 1)
    case CompleteTake(_) => if slot in r.active then t.(completed := t.completed + 1) else t
    case DeadTake(_, _) => if slot in r.active then t.(buried := t.buried + 1) else t
    case RemovePending(_) => if slot in r.pending then t.(removed := t.removed + 1) else t
    case RemoveActive(_, _) => if slot in r.active then t.(withdrawn := t.withdrawn + 1) else t
    case ReleaseTake(_, _, _, _) => if slot in r.active then t.(released := t.released + 1) else t
    case ReleaseAdd(_, _, _, _) => if slot in r.pending then t.(merged := t.merged + 1) else t
    case _ => t
  }

  function Tallied(t: Tally, sys: Sys, step: Step, slot: Slot): Tally {
    match step
    case Call(_, _) => t
    case Do(id, _) =>
      if id in sys.calls && SlotOf(sys.calls[id]) == slot then DoTally(t, sys.redis, sys.calls[id]) else t
    case Crash(id) =>
      if id in sys.calls && SlotOf(sys.calls[id]) == slot && sys.calls[id].ReleaseAdd? then t.(lost := t.lost + 1)
      else if id in sys.calls && SlotOf(sys.calls[id]) == slot && sys.calls[id].ClaimLease?
      then t.(stranded := t.stranded + 1)
      else t
  }

  function Total(run: seq<Step>, slot: Slot): Tally {
    if run == [] then NOTHING
    else
      var before := run[..|run| - 1];
      Tallied(Total(before, slot), AfterRun(before), run[|run| - 1], slot)
  }

  function One(b: bool): nat { if b then 1 else 0 }

  /** The calls about to put the slot back, and those about to lease it. */
  function PuttingBack(calls: map<nat, Place>, slot: Slot): set<nat> {
    set id | id in calls && calls[id].ReleaseAdd? && SlotOf(calls[id]) == slot
  }

  function Leasing(calls: map<nat, Place>, slot: Slot): set<nat> {
    set id | id in calls && calls[id].ClaimLease? && SlotOf(calls[id]) == slot
  }

  ghost predicate Accounted(sys: Sys, t: Tally, slot: Slot) {
    && t.accepted + t.released ==
       t.claimed + t.removed + One(slot in sys.redis.pending) + |PuttingBack(sys.calls, slot)| + t.merged + t.lost
    && t.claimed == t.leased + t.renewed + |Leasing(sys.calls, slot)| + t.stranded
    && t.leased + t.revived ==
       t.completed + t.buried + t.withdrawn + t.released + One(slot in sys.redis.active)
  }

  lemma CallsWithout(calls: map<nat, Place>, id: nat, slot: Slot)
    requires id in calls
    ensures |PuttingBack(calls - {id}, slot)| ==
            |PuttingBack(calls, slot)| - One(calls[id].ReleaseAdd? && SlotOf(calls[id]) == slot)
    ensures |Leasing(calls - {id}, slot)| ==
            |Leasing(calls, slot)| - One(calls[id].ClaimLease? && SlotOf(calls[id]) == slot)
  {
    hide SlotOf;
    assert PuttingBack(calls - {id}, slot) == PuttingBack(calls, slot) - {id};
    assert Leasing(calls - {id}, slot) == Leasing(calls, slot) - {id};
  }

  lemma CallsWith(calls: map<nat, Place>, id: nat, pc: Place, slot: Slot)
    requires id !in calls
    ensures |PuttingBack(calls[id := pc], slot)| ==
            |PuttingBack(calls, slot)| + One(pc.ReleaseAdd? && SlotOf(pc) == slot)
    ensures |Leasing(calls[id := pc], slot)| ==
            |Leasing(calls, slot)| + One(pc.ClaimLease? && SlotOf(pc) == slot)
  {
    hide SlotOf;
    assert calls[id := pc] - {id} == calls;
    CallsWithout(calls[id := pc], id, slot);
  }

  lemma CallsMoved(calls: map<nat, Place>, id: nat, pc: Place, slot: Slot)
    requires id in calls
    ensures |PuttingBack(calls[id := pc], slot)| ==
            |PuttingBack(calls, slot)| - One(calls[id].ReleaseAdd? && SlotOf(calls[id]) == slot)
            + One(pc.ReleaseAdd? && SlotOf(pc) == slot)
    ensures |Leasing(calls[id := pc], slot)| ==
            |Leasing(calls, slot)| - One(calls[id].ClaimLease? && SlotOf(calls[id]) == slot)
            + One(pc.ClaimLease? && SlotOf(pc) == slot)
  {
    hide SlotOf, PuttingBack, Leasing;
    assert (calls - {id})[id := pc] == calls[id := pc];
    CallsWithout(calls, id, slot);
    CallsWith(calls - {id}, id, pc, slot);
  }

  /** What one command adds to the tally is what it changes in the store and in its own place. */
  ghost predicate Moves(t: Tally, r: Redis, pc: Place, pc': Place, slot: Slot) {
    var r', t' := Command(r, pc), if SlotOf(pc) == slot then DoTally(t, r, pc) else t;
    && t'.accepted - t.accepted + t'.released - t.released ==
       t'.claimed - t.claimed + t'.removed - t.removed + t'.merged - t.merged + t'.lost - t.lost
       + One(slot in r'.pending) - One(slot in r.pending)
       + One(pc'.ReleaseAdd? && SlotOf(pc') == slot) - One(pc.ReleaseAdd? && SlotOf(pc) == slot)
    && t'.claimed - t.claimed ==
       t'.leased - t.leased + t'.renewed - t.renewed + t'.stranded - t.stranded
       + One(pc'.ClaimLease? && SlotOf(pc') == slot) - One(pc.ClaimLease? && SlotOf(pc) == slot)
    && t'.leased - t.leased + t'.revived - t.revived ==
       t'.completed - t.completed + t'.buried - t.buried + t'.withdrawn - t.withdrawn
       + t'.released - t.released + One(slot in r'.active) - One(slot in r.active)
  }

  lemma ClaimMoves(t: Tally, r: Redis, pc: Place, keys: seq<string>, slot: Slot)
    requires Claiming(pc)
    ensures Moves(t, r, pc, ContinueClaim(r, pc, keys), slot)
  {
    hide NextClaim;
  }

  lemma ReleaseAddMoves(t: Tally, r: Redis, pc: Place, keys: seq<string>, slot: Slot)
    requires pc.ReleaseAdd?
    ensures Moves(t, r, pc, ContinueRelease(r, pc, keys), slot)
  {
    hide NextRelease;
  }

  lemma ReleaseTakeMoves(t: Tally, r: Redis, pc: Place, keys: seq<string>, slot: Slot)
    requires pc.ReleaseScan? || pc.ReleaseTake?
    ensures Moves(t, r, pc, ContinueRelease(r, pc, keys), slot)
  {
    hide NextRelease;
  }

  lemma ReleaseMoves(t: Tally, r: Redis, pc: Place, keys: seq<string>, slot: Slot)
    requires Releasing(pc)
    ensures Moves(t, r, pc, ContinueRelease(r, pc, keys), slot)
  {
    hide Moves, ContinueRelease;
    if pc.ReleaseAdd? { ReleaseAddMoves(t, r, pc, keys, slot); } else { ReleaseTakeMoves(t, r, pc, keys, slot); }
  }

  predicate Completing(pc: Pc) { pc.CompleteRead? || pc.CompleteTake? || pc.CompleteAttempts? || pc.CompleteJob? }

  lemma CompleteMoves(t: Tally, r: Redis, pc: Place, slot: Slot)
    requires Completing(pc)
    ensures Moves(t, r, pc, ContinueEnd(r, pc), slot)
  {
  }

  lemma DeadMoves(t: Tally, r: Redis, pc: Place, slot: Slot)
    requires Ending(pc) && !Completing(pc)
    ensures Moves(t, r, pc, ContinueEnd(r, pc), slot)
  {
  }

  lemma EndMoves(t: Tally, r: Redis, pc: Place, slot: Slot)
    requires Ending(pc)
    ensures Moves(t, r, pc, ContinueEnd(r, pc), slot)
  {
    hide Moves, Ending, Completing, ContinueEnd;
    if Completing(pc) { CompleteMoves(t, r, pc, slot); } else { DeadMoves(t, r, pc, slot); }
  }

  lemma OtherMoves(t: Tally, r: Redis, pc: Place, slot: Slot)
    requires !Claiming(pc) && !Releasing(pc) && !Ending(pc)
    ensures Moves(t, r, pc, ContinueOther(r, pc), slot)
  {
  }

  lemma CommandMoves(t: Tally, r: Redis, pc: Place, keys: seq<string>, slot: Slot)
    ensures Moves(t, r, pc, Continue(r, pc, keys), slot)
  {
    hide Moves, Claiming, Releasing, Ending, ContinueClaim, ContinueRelease, ContinueEnd, ContinueOther;
    if Claiming(pc) { ClaimMoves(t, r, pc, keys, slot); }
    else if Releasing(pc) { ReleaseMoves(t, r, pc, keys, slot); }
    else if Ending(pc) { EndMoves(t, r, pc, slot); }
    else { OtherMoves(t, r, pc, slot); }
  }

  lemma StepAccounted(sys: Sys, t: Tally, step: Step, slot: Slot)
    requires Answers(sys, step) && Accounted(sys, t, slot)
    ensures Accounted(Next(sys, step), Tallied(t, sys, step, slot), slot)
  {
    hide Command, Continue, DoTally, PuttingBack, Leasing, Scanned, SlotOf;
    match step
    case Call(id, pc) => CallsWith(sys.calls, id, pc, slot);
    case Crash(id) => CallsWithout(sys.calls, id, slot);
    case Do(id, keys) =>
      CommandMoves(t, sys.redis, sys.calls[id], keys, slot);
      CallsMoved(sys.calls, id, Continue(sys.redis, sys.calls[id], keys), slot);
  }

  /** Exact accounting, under every interleaving and every crash. */
  lemma {:induction false} AlwaysAccounted(run: seq<Step>, slot: Slot)
    requires IsRun(run)
    ensures Accounted(AfterRun(run), Total(run, slot), slot)
  {
    hide Accounted, Answers, Next, Tallied;
    if run == [] {
      NothingAccounted(slot);
    } else {
      var before := run[..|run| - 1];
      AlwaysAccounted(before, slot);
      StepAccounted(AfterRun(before), Total(before, slot), run[|run| - 1], slot);
    }
  }

  lemma NothingAccounted(slot: Slot)
    ensures Accounted(START, NOTHING, slot)
  {
    assert PuttingBack(map[], slot) == {} && Leasing(map[], slot) == {};
  }

  /**
   * Every job accepted, and every one a heartbeat revived, is completed, dead-lettered,
   * removed, pending, active or in the hands of a call between two commands, unless it was
   * merged with another of its key or lost to a crash between those two commands.
   */
  lemma RedisConservation(run: seq<Step>, slot: Slot)
    requires IsRun(run)
    ensures var t, sys := Total(run, slot), AfterRun(run);
            t.accepted + t.revived ==
            t.completed + t.buried + t.removed + t.withdrawn
            + One(slot in sys.redis.pending) + One(slot in sys.redis.active)
            + |PuttingBack(sys.calls, slot)| + |Leasing(sys.calls, slot)|
            + t.merged + t.renewed + t.lost + t.stranded
  {
    AlwaysAccounted(run, slot);
  }

  /**
   * A delivery never reaches two workers: claims won, removals and what is pending never
   * exceed the jobs accepted and the leases released; and releases never exceed the leases
   * that claims and heartbeats put in place.
   */
  lemma DeliveriesBacked(run: seq<Step>, slot: Slot)
    requires IsRun(run)
    ensures var t, r := Total(run, slot), AfterRun(run).redis;
            && t.claimed + t.removed + One(slot in r.pending) <= t.accepted + t.released
            && t.released + t.completed + t.buried + One(slot in r.active) <= t.claimed + t.revived
            && (t.revived == 0 ==> t.completed + t.buried + t.removed + One(slot in r.pending) + One(slot in r.active)
                                   <= t.accepted)
  {
    AlwaysAccounted(run, slot);
  }

  // ---- Payloads ----------------------------------------------------------

  /** The key a call is about to delete the payload of. */
  predicate Deleting(pc: Place, key: string) { (pc.CompleteJob? || pc.RemoveJob?) && pc.key == key }

  /** A call that has queued the key and not stored its payload yet. */
  predicate Storing(pc: Place, key: string) { pc.EnqueueStore? && pc.job.key == key }

  /** The step deletes the payload of the key, or loses it to a crash. */
  predicate Loses(sys: Sys, step: Step, key: string) {
    || (step.Do? && step.id in sys.calls && Deleting(sys.calls[step.id], key))
    || (step.Crash? && step.id in sys.calls && Storing(sys.calls[step.id], key))
  }

  /** The call has a slot of the key in hand. */
  predicate HasInHand(pc: Place, key: string) {
    || ((pc.ClaimLease? || pc.ReleaseAdd?) && SlotOf(pc).1 == key)
    || (pc.BeatExtend? && pc.slot.1 == key)
  }

  ghost predicate Known(sys: Sys, key: string) {
    key in sys.redis.jobs || exists id :: id in sys.calls && Storing(sys.calls[id], key)
  }

  /** The key is queued, leased or in a call's hands. */
  ghost predicate Present(sys: Sys, key: string) {
    || (exists queue: string :: (queue, key) in sys.redis.pending || (queue, key) in sys.redis.active)
    || exists id :: id in sys.calls && HasInHand(sys.calls[id], key)
  }

  /** What is present has its payload stored, or a call about to store it. */
  ghost predicate PayloadOk(sys: Sys, key: string) { Present(sys, key) ==> Known(sys, key) }

  /** The step loses the payload of a key that is present, and no other call is about to store it. */
  ghost predicate Orphans(sys: Sys, step: Step, key: string) {
    && Loses(sys, step, key) && Present(sys, key) && (step.Crash? ==> key !in sys.redis.jobs)
    && forall id | id in sys.calls && Storing(sys.calls[id], key) :: id == step.id
  }

  ghost predicate NeverOrphaned(run: seq<Step>, key: string) {
    run == [] ||
    (NeverOrphaned(run[..|run| - 1], key) && !Orphans(AfterRun(run[..|run| - 1]), run[|run| - 1], key))
  }

  ghost predicate AlwaysPayloadOk(run: seq<Step>, key: string) {
    PayloadOk(AfterRun(run), key) && (run != [] ==> AlwaysPayloadOk(run[..|run| - 1], key))
  }

  lemma KnownStays(sys: Sys, step: Step, key: string)
    requires Answers(sys, step) && Known(sys, key) && !Loses(sys, step, key)
    ensures Known(Next(sys, step), key)
  {
    hide Answers, Loses, Storing, Next;
    if key in sys.redis.jobs {
      StoredStays(sys, step, key);
    } else {
      var id :| id in sys.calls && Storing(sys.calls[id], key);
      StoringStays(sys, step, key, id);
    }
  }

  lemma StoredStays(sys: Sys, step: Step, key: string)
    requires key in sys.redis.jobs && !Loses(sys, step, key)
    ensures key in Next(sys, step).redis.jobs
  {
    hide Continue, Command;
    if step.Do? && step.id in sys.calls { CommandKeeps(sys.redis, sys.calls[step.id], key); }
  }

  lemma CommandKeeps(r: Redis, pc: Place, key: string)
    requires key in r.jobs && !Deleting(pc, key)
    ensures key in Command(r, pc).jobs
  {
    hide SlotOf;
  }

  lemma StoringStays(sys: Sys, step: Step, key: string, id: nat)
    requires Answers(sys, step) && id in sys.calls && Storing(sys.calls[id], key) && !Loses(sys, step, key)
    ensures Known(Next(sys, step), key)
  {
    hide Scanned, ContinueClaim, ContinueRelease, ContinueEnd;
    var sys' := Next(sys, step);
    if step.Do? && step.id == id {
      assert key in sys'.redis.jobs;
    } else {
      assert id in sys'.calls && Storing(sys'.calls[id], key);
    }
  }

  /** A command adds at most its own slot, and only with the slot in hand or on its first queueing. */
  predicate AddsOwn(r: Redis, pc: Place, pc': Place) {
    var r', slot := Command(r, pc), SlotOf(pc);
    && r'.pending.Keys <= r.pending.Keys + (if HasInHand(pc, slot.1) || Storing(pc', slot.1) then {slot} else {})
    && r'.active.Keys <= r.active.Keys + (if HasInHand(pc, slot.1) then {slot} else {})
  }

  /** And takes a slot in hand only from one of the sets, or by its stored payload. */
  ghost predicate TakesOwn(r: Redis, pc: Place, pc': Place) {
    forall key :: HasInHand(pc', key) ==>
      key in r.jobs || (SlotOf(pc).1 == key && (SlotOf(pc) in r.pending || SlotOf(pc) in r.active))
  }

  lemma AddsIsOwn(r: Redis, pc: Place, keys: seq<string>)
    ensures AddsOwn(r, pc, Continue(r, pc, keys))
  {
    hide ContinueClaim, ContinueRelease, ContinueEnd;
  }

  lemma TakesIsOwn(r: Redis, pc: Place, keys: seq<string>)
    ensures TakesOwn(r, pc, Continue(r, pc, keys))
  {
    hide Command;
  }

  lemma KeepingStep(sys: Sys, step: Step, key: string)
    requires Answers(sys, step) && PayloadOk(sys, key) && !Loses(sys, step, key)
    ensures PayloadOk(Next(sys, step), key)
  {
    hide Answers, Loses, Command, Continue, Storing, HasInHand, SlotOf;
    var sys' := Next(sys, step);
    if Known(sys, key) {
      KnownStays(sys, step, key);
    } else {
      match step
      case Call(id, pc) => FreshHasNone(sys, step, key);
      case Crash(id) =>
      case Do(id, keys) =>
        AnswersCall(sys, id, keys);
        var pc := sys.calls[id];
        var pc' := Continue(sys.redis, pc, keys);
        AddsIsOwn(sys.redis, pc, keys);
        TakesIsOwn(sys.redis, pc, keys);
        UnknownStays(sys, id, keys, key);
    }
  }

  lemma AnswersCall(sys: Sys, id: nat, keys: seq<string>)
    requires Answers(sys, Do(id, keys))
    ensures id in sys.calls
  {
  }

  lemma FreshHasNone(sys: Sys, step: Step, key: string)
    requires Answers(sys, step) && step.Call?
    ensures !HasInHand(step.pc, key) && step.id !in sys.calls && !Storing(step.pc, key)
  {
  }

  /** With no payload known, only a first queueing can make a slot of the key appear. */
  lemma UnknownStays(sys: Sys, id: nat, keys: seq<string>, key: string)
    requires PayloadOk(sys, key) && !Known(sys, key) && id in sys.calls
    requires var pc := sys.calls[id]; var pc' := Continue(sys.redis, pc, keys);
             AddsOwn(sys.redis, pc, pc') && TakesOwn(sys.redis, pc, pc')
    ensures PayloadOk(Next(sys, Do(id, keys)), key)
  {
    hide Command, Continue, Storing, HasInHand, SlotOf;
    var pc := sys.calls[id];
    var pc', sys' := Continue(sys.redis, pc, keys), Next(sys, Do(id, keys));
    if Storing(pc', key) {
      assert id in sys'.calls && Storing(sys'.calls[id], key);
    } else {
      assert !HasInHand(pc, key);
      forall queue: string ensures (queue, key) !in sys'.redis.pending && (queue, key) !in sys'.redis.active {
        assert (queue, key) !in sys.redis.pending && (queue, key) !in sys.redis.active;
      }
      assert !HasInHand(pc', key);
    }
  }

  /** The step that deletes the payload, or crashes before storing it, leaves the sets and what is in hand alone. */
  lemma LossPresent(sys: Sys, step: Step, key: string)
    requires Answers(sys, step) && Loses(sys, step, key)
    ensures Present(Next(sys, step), key) <==> Present(sys, key)
  {
    hide Scanned;
    var sys' := Next(sys, step);
    assert sys'.redis.pending == sys.redis.pending && sys'.redis.active == sys.redis.active;
    assert !HasInHand(sys.calls[step.id], key);
    assert step.id in sys'.calls ==> !HasInHand(sys'.calls[step.id], key);
    assert forall id | id in sys.calls && id != step.id :: id in sys'.calls && sys'.calls[id] == sys.calls[id];
    assert forall id | id in sys'.calls && id != step.id :: id in sys.calls && sys'.calls[id] == sys.calls[id];
    hide HasInHand, Next;
  }

  lemma LossKnown(sys: Sys, step: Step, key: string)
    requires Answers(sys, step) && Loses(sys, step, key)
    ensures Known(Next(sys, step), key) <==>
              || (step.Crash? && key in sys.redis.jobs)
              || exists id :: id in sys.calls && Storing(sys.calls[id], key) && id != step.id
  {
    hide Scanned;
    var sys' := Next(sys, step);
    assert key in sys'.redis.jobs <==> step.Crash? && key in sys.redis.jobs;
    assert step.id in sys'.calls ==> !Storing(sys'.calls[step.id], key);
    assert forall id | id in sys.calls && id != step.id :: id in sys'.calls && sys'.calls[id] == sys.calls[id];
    assert forall id | id in sys'.calls && id != step.id :: id in sys.calls && sys'.calls[id] == sys.calls[id];
    hide Storing, Next;
  }

  /** One step leaves a present key without payload exactly when it orphans it. */
  lemma PayloadStep(sys: Sys, step: Step, key: string)
    requires Answers(sys, step) && PayloadOk(sys, key)
    ensures PayloadOk(Next(sys, step), key) <==> !Orphans(sys, step, key)
  {
    hide Answers, Loses, Storing, Next, Present, Known;
    if Loses(sys, step, key) {
      LossPresent(sys, step, key);
      LossKnown(sys, step, key);
    } else {
      KeepingStep(sys, step, key);
    }
  }

  /**
   * Through a run, whatever is queued, leased or in hand under the key has its payload
   * stored or about to be, exactly as long as no completion or removal deletes the payload,
   * and no crash falls before its storing, while the key is present and nobody else stores it.
   */
  lemma {:induction false} QueuedHasPayload(run: seq<Step>, key: string)
    requires IsRun(run)
    ensures NeverOrphaned(run, key) <==> AlwaysPayloadOk(run, key)
  {
    hide PayloadOk, Answers, Orphans, Next;
    if run == [] {
      assert PayloadOk(START, key) by { NothingQueued(key); }
    } else {
      var before := run[..|run| - 1];
      QueuedHasPayload(before, key);
      if PayloadOk(AfterRun(before), key) { PayloadStep(AfterRun(before), run[|run| - 1], key); }
    }
  }

  lemma NothingQueued(key: string)
    ensures PayloadOk(START, key)
  {
  }

  lemma Grow(run: seq<Step>, step: Step, slot: Slot)
    requires IsRun(run) && Answers(AfterRun(run), step)
    ensures IsRun(run + [step]) && AfterRun(run + [step]) == Next(AfterRun(run), step)
    ensures Total(run + [step], slot) == Tallied(Total(run, slot), AfterRun(run), step, slot)
  {
    hide Answers, Next, Tallied;
    assert (run + [step])[..|run|] == run;
  }

  /** Otherwise it may be queued without one: a crash right after queueing leaves a key nobody can deliver. */
  lemma OrphanedByCrash(job: Job, at: int) returns (run: seq<Step>)
    ensures IsRun(run)
    ensures var sys := AfterRun(run);
            (job.queue, job.key) in sys.redis.pending && job.key !in sys.redis.jobs && sys.calls == map[]
  {
    hide AfterRun, IsRun, Total;
    var slot := (job.queue, job.key);
    var r0: seq<Step> := [];
    EmptyRun(slot);
    Grow(r0, Call(0, EnqueueAdd(job, at)), slot);
    var r1 := r0 + [Call(0, EnqueueAdd(job, at))];
    Grow(r1, Do(0, []), slot);
    var r2 := r1 + [Do(0, [])];
    Grow(r2, Crash(0), slot);
    run := r2 + [Crash(0)];
  }

  lemma EmptyRun(slot: Slot)
    ensures IsRun([]) && AfterRun([]) == START && Total([], slot) == NOTHING
  {
  }

  /** One command of a call that does not scan. */
  lemma Advance(run: seq<Step>, id: nat, slot: Slot)
    requires IsRun(run) && id in AfterRun(run).calls
    requires !AfterRun(run).calls[id].ClaimScan? && !AfterRun(run).calls[id].ReleaseScan?
    ensures IsRun(run + [Do(id, [])])
    ensures var sys := AfterRun(run); var pc := sys.calls[id];
            && AfterRun(run + [Do(id, [])]) == Sys(Command(sys.redis, pc), sys.calls[id := Continue(sys.redis, pc, [])])
            && Total(run + [Do(id, [])], slot) ==
               if SlotOf(pc) == slot then DoTally(Total(run, slot), sys.redis, pc) else Total(run, slot)
  {
    hide AfterRun, IsRun, Total, Command, Continue, SlotOf, DoTally;
    Grow(run, Do(id, []), slot);
  }

  lemma Begin(run: seq<Step>, id: nat, pc: Place, slot: Slot)
    requires IsRun(run) && id !in AfterRun(run).calls && Starts(pc)
    ensures IsRun(run + [Call(id, pc)]) && Total(run + [Call(id, pc)], slot) == Total(run, slot)
    ensures AfterRun(run + [Call(id, pc)]) == AfterRun(run).(calls := AfterRun(run).calls[id := pc])
  {
    hide AfterRun, IsRun, Total, Starts;
    Grow(run, Call(id, pc), slot);
  }

  lemma CompletionCommands(r: Redis, slot: Slot, t: Tally)
    requires slot in r.active && slot.1 in r.jobs && r.jobs[slot.1].queue == slot.0
    ensures Command(r, CompleteRead(slot.1)) == r && Continue(r, CompleteRead(slot.1), []) == CompleteTake(slot)
    ensures Command(r, CompleteTake(slot)) == r.(active := r.active - {slot})
    ensures Continue(r, CompleteTake(slot), []) == CompleteAttempts(slot.1)
    ensures DoTally(t, r, CompleteRead(slot.1)) == t
    ensures SlotOf(CompleteTake(slot)) == slot && DoTally(t, r, CompleteTake(slot)) == t.(completed := t.completed + 1)
  {
  }

  lemma ForgettingCommands(r: Redis, key: string, t: Tally)
    ensures Command(r, CompleteAttempts(key)) == r.(attempts := r.attempts - {key})
    ensures Continue(r, CompleteAttempts(key), []) == CompleteJob(key) && DoTally(t, r, CompleteAttempts(key)) == t
    ensures Command(r, CompleteJob(key)) == r.(jobs := r.jobs - {key})
    ensures Continue(r, CompleteJob(key), []) == Returned(Finished(true)) && DoTally(t, r, CompleteJob(key)) == t
  {
  }

  lemma EnqueueCommands(r: Redis, job: Job, at: int, added: bool, t: Tally)
    ensures var slot := (job.queue, job.key);
            && SlotOf(EnqueueAdd(job, at)) == slot
            && Command(r, EnqueueAdd(job, at)) == r.(pending := r.pending[slot := at])
            && Continue(r, EnqueueAdd(job, at), []) == EnqueueStore(job, slot !in r.pending)
            && DoTally(t, r, EnqueueAdd(job, at)) == if slot in r.pending then t else t.(accepted := t.accepted + 1)
    ensures Command(r, EnqueueStore(job, added)) == r.(jobs := r.jobs[job.key := job])
    ensures Continue(r, EnqueueStore(job, added), []) == Returned(Enqueued(added))
    ensures DoTally(t, r, EnqueueStore(job, added)) == t
  {
  }

  /** A completion takes the job off the active set. */
  lemma TakePart(run: seq<Step>, slot: Slot, id: nat) returns (run': seq<Step>)
    requires IsRun(run) && id !in AfterRun(run).calls
    requires var r := AfterRun(run).redis;
             slot in r.active && slot.1 in r.jobs && r.jobs[slot.1].queue == slot.0
    ensures IsRun(run') && run <= run'
    ensures var sys, sys', t := AfterRun(run), AfterRun(run'), Total(run, slot);
            && sys'.redis == sys.redis.(active := sys.redis.active - {slot})
            && sys'.calls == sys.calls[id := CompleteAttempts(slot.1)]
            && Total(run', slot) == t.(completed := t.completed + 1)
  {
    hide AfterRun, IsRun, Total, Command, Continue, SlotOf, DoTally;
    CompletionCommands(AfterRun(run).redis, slot, Total(run, slot));
    Begin(run, id, CompleteRead(slot.1), slot);
    var r1 := run + [Call(id, CompleteRead(slot.1))];
    Advance(r1, id, slot);
    var r2 := r1 + [Do(id, [])];
    Advance(r2, id, slot);
    run' := r2 + [Do(id, [])];
  }

  /** A completion of an active job, up to the deletion of its payload. */
  lemma CompletePart(run: seq<Step>, slot: Slot, id: nat) returns (run': seq<Step>)
    requires IsRun(run) && id !in AfterRun(run).calls
    requires var r := AfterRun(run).redis;
             slot in r.active && slot.1 in r.jobs && r.jobs[slot.1].queue == slot.0
    ensures IsRun(run') && run <= run'
    ensures var sys, sys', t := AfterRun(run), AfterRun(run'), Total(run, slot);
            && sys'.redis == sys.redis.(active := sys.redis.active - {slot}, attempts := sys.redis.attempts - {slot.1})
            && sys'.calls == sys.calls[id := CompleteJob(slot.1)]
            && Total(run', slot) == t.(completed := t.completed + 1)
  {
    hide AfterRun, IsRun, Total, Command, Continue, SlotOf, DoTally;
    var r3 := TakePart(run, slot, id);
    ForgettingCommands(AfterRun(r3).redis, slot.1, Total(r3, slot));
    Advance(r3, id, slot);
    run' := r3 + [Do(id, [])];
  }

  lemma DeletePart(run: seq<Step>, slot: Slot, id: nat) returns (run': seq<Step>)
    requires IsRun(run) && id in AfterRun(run).calls && AfterRun(run).calls[id] == CompleteJob(slot.1)
    ensures IsRun(run') && run <= run' && Total(run', slot) == Total(run, slot)
    ensures var sys, sys' := AfterRun(run), AfterRun(run');
            && sys'.redis == sys.redis.(jobs := sys.redis.jobs - {slot.1})
            && sys'.calls == sys.calls[id := Returned(Finished(true))]
  {
    hide AfterRun, IsRun, Total, Command, Continue, SlotOf, DoTally;
    ForgettingCommands(AfterRun(run).redis, slot.1, Total(run, slot));
    Advance(run, id, slot);
    run' := run + [Do(id, [])];
  }

  /** A whole enqueue of a job that is not pending. */
  lemma EnqueuePart(run: seq<Step>, job: Job, at: int, id: nat) returns (run': seq<Step>)
    requires IsRun(run) && id !in AfterRun(run).calls && (job.queue, job.key) !in AfterRun(run).redis.pending
    ensures IsRun(run') && run <= run'
    ensures var sys, sys', slot := AfterRun(run), AfterRun(run'), (job.queue, job.key);
            && sys'.redis == sys.redis.(pending := sys.redis.pending[slot := at], jobs := sys.redis.jobs[job.key := job])
            && sys'.calls == sys.calls[id := Returned(Enqueued(true))]
            && Total(run', slot) == Total(run, slot).(accepted := Total(run, slot).accepted + 1)
  {
    hide AfterRun, IsRun, Total, Command, Continue, SlotOf, DoTally;
    var slot := (job.queue, job.key);
    var r, t := AfterRun(run).redis, Total(run, slot);
    EnqueueCommands(r, job, at, true, t);
    Begin(run, id, EnqueueAdd(job, at), slot);
    var r1 := run + [Call(id, EnqueueAdd(job, at))];
    Advance(r1, id, slot);
    var r2 := r1 + [Do(id, [])];
    EnqueueCommands(AfterRun(r2).redis, job, at, true, Total(r2, slot));
    Advance(r2, id, slot);
    run' := r2 + [Do(id, [])];
  }

  /**
   * And so does a completion that races with the next enqueue of the key: from every state
   * in which the job is active, its delete can land after the new payload was stored.
   */
  lemma OrphanedByCompletion(run: seq<Step>, job: Job, at: int, first: nat, second: nat) returns (run': seq<Step>)
    requires IsRun(run) && first != second && first !in AfterRun(run).calls && second !in AfterRun(run).calls
    requires var r := AfterRun(run).redis; var slot := (job.queue, job.key);
             slot in r.active && slot !in r.pending && job.key in r.jobs && r.jobs[job.key].queue == job.queue
    ensures IsRun(run') && run <= run'
    ensures var sys := AfterRun(run');
            && (job.queue, job.key) in sys.redis.pending && job.key !in sys.redis.jobs
            && first in sys.calls && sys.calls[first] == Returned(Finished(true))
            && second in sys.calls && sys.calls[second] == Returned(Enqueued(true))
  {
    hide AfterRun, IsRun, Total;
    var slot := (job.queue, job.key);
    var taken := CompletePart(run, slot, first);
    var queued := EnqueuePart(taken, job, at, second);
    run' := DeletePart(queued, slot, first);
  }

  /** No call can deliver or end a key without a payload: a claim passes over it, the others return after their first command. */
  lemma OrphanCannotEnd(r: Redis, key: string, at: int, until: int, queue: string, rest: seq<string>, claimed: seq<Job>)
    requires key !in r.jobs
    ensures Continue(r, ClaimRead(queue, [key] + rest, until, claimed), []) == NextClaim(queue, rest, until, claimed)
    ensures Continue(r, CompleteRead(key), []) == Returned(Finished(false))
    ensures Continue(r, DeadRead(key, at), []) == Returned(DeadLettered)
    ensures Continue(r, RemoveRead(key), []) == Returned(Removed(false, false))
    ensures Continue(r, BeatRead(key, until), []) == Returned(Beaten(false))
  {
    assert ([key] + rest)[1..] == rest;
  }

  // ---- Retries without an attempt count ----------------------------------

  /** The job alone, pending and due; whoever called has returned. */
  predicate Waiting(sys: Sys, job: Job, at: int, next: nat) {
    && sys.redis.pending == map[(job.queue, job.key) := at] && sys.redis.active == map[]
    && sys.redis.jobs == map[job.key := job] && forall id | id in sys.calls :: id < next
  }

  lemma ClaimCommands(r: Redis, slot: Slot, at: int, until: int, t: Tally)
    ensures Command(r, ClaimScan(slot.0, at, until)) == r && DoTally(t, r, ClaimScan(slot.0, at, until)) == t
    ensures Continue(r, ClaimScan(slot.0, at, until), [slot.1]) == ClaimTake(slot.0, [slot.1], until, [])
    ensures SlotOf(ClaimTake(slot.0, [slot.1], until, [])) == slot
    ensures Command(r, ClaimTake(slot.0, [slot.1], until, [])) == r.(pending := r.pending - {slot})
    ensures slot in r.pending ==>
      && Continue(r, ClaimTake(slot.0, [slot.1], until, []), []) == ClaimLease(slot.0, [slot.1], until, [])
      && DoTally(t, r, ClaimTake(slot.0, [slot.1], until, [])) == t.(claimed := t.claimed + 1)
    ensures SlotOf(ClaimLease(slot.0, [slot.1], until, [])) == slot
    ensures Command(r, ClaimLease(slot.0, [slot.1], until, [])) == r.(active := r.active[slot := until])
    ensures Continue(r, ClaimLease(slot.0, [slot.1], until, []), []) == ClaimRead(slot.0, [slot.1], until, [])
    ensures slot !in r.active ==>
      DoTally(t, r, ClaimLease(slot.0, [slot.1], until, [])) == t.(leased := t.leased + 1)
  {
  }

  /** The job leaves pending and is leased, its payload not read yet. */
  lemma LeasePart(run: seq<Step>, slot: Slot, at: int, until: int, id: nat) returns (run': seq<Step>)
    requires IsRun(run) && id !in AfterRun(run).calls && at >= 0
    requires AfterRun(run).redis.pending == map[slot := at] && AfterRun(run).redis.active == map[]
    ensures IsRun(run')
    ensures var sys, sys', t := AfterRun(run), AfterRun(run'), Total(run, slot);
            && sys'.redis == sys.redis.(pending := map[], active := map[slot := until])
            && sys'.calls == sys.calls[id := ClaimRead(slot.0, [slot.1], until, [])]
            && Total(run', slot) == t.(claimed := t.claimed + 1, leased := t.leased + 1)
  {
    hide AfterRun, IsRun, Total, Command, Continue, SlotOf, DoTally, Scanned;
    Begin(run, id, ClaimScan(slot.0, at, until), slot);
    var r1 := run + [Call(id, ClaimScan(slot.0, at, until))];
    ClaimCommands(AfterRun(r1).redis, slot, at, until, Total(r1, slot));
    OneScanned(slot, at);
    Grow(r1, Do(id, [slot.1]), slot);
    var r2 := r1 + [Do(id, [slot.1])];
    Advance(r2, id, slot);
    var r3 := r2 + [Do(id, [])];
    ClaimCommands(AfterRun(r3).redis, slot, at, until, Total(r3, slot));
    Advance(r3, id, slot);
    run' := r3 + [Do(id, [])];
  }

  lemma OneScanned(slot: Slot, at: int)
    requires at >= 0
    ensures Scanned(map[slot := at], slot.0, at, BATCH, [slot.1])
  {
    assert [slot.1][0] == slot.1;
  }

  lemma ReadCommands(r: Redis, job: Job, until: int, attempts: nat, t: Tally)
    requires job.key in r.jobs && r.jobs[job.key] == job
    ensures var pc := ClaimRead(job.queue, [job.key], until, []);
            && Command(r, pc) == r && DoTally(t, r, pc) == t
            && Continue(r, pc, []) == ClaimAttempts(job.queue, [job.key], until, [], job)
    ensures var pc := ClaimAttempts(job.queue, [job.key], until, [], job); var pc' := Continue(r, pc, []);
            && Command(r, pc) == r && DoTally(t, r, pc) == t
            && pc' == ClaimCount(job.queue, [job.key], until, [], job, if job.key in r.attempts then r.attempts[job.key] + 1 else 1)
    ensures var pc := ClaimCount(job.queue, [job.key], until, [], job, attempts);
            && Command(r, pc) == r.(attempts := r.attempts[job.key := attempts]) && DoTally(t, r, pc) == t
            && Continue(r, pc, []) == Returned(Claimed([job]))
  {
    assert [job.key][1..] == [] && [] + [job] == [job];
  }

  /** One claim, which delivers the job. */
  lemma ClaimRound(run: seq<Step>, job: Job, at: int, until: int, id: nat) returns (run': seq<Step>)
    requires IsRun(run) && Waiting(AfterRun(run), job, at, id) && at >= 0
    ensures IsRun(run')
    ensures var sys, sys', slot := AfterRun(run), AfterRun(run'), (job.queue, job.key);
            && sys'.redis.pending == map[] && sys'.redis.active == map[slot := until]
            && sys'.redis.jobs == map[job.key := job] && sys'.calls == sys.calls[id := Returned(Claimed([job]))]
            && Total(run', slot) == Total(run, slot).(claimed := Total(run, slot).claimed + 1, leased := Total(run, slot).leased + 1)
  {
    hide AfterRun, IsRun, Total, Command, Continue, SlotOf, DoTally;
    var slot := (job.queue, job.key);
    var r1 := LeasePart(run, slot, at, until, id);
    var r, t := AfterRun(r1).redis, Total(r1, slot);
    ReadCommands(r, job, until, if job.key in r.attempts then r.attempts[job.key] + 1 else 1, t);
    Advance(r1, id, slot);
    var r2 := r1 + [Do(id, [])];
    Advance(r2, id, slot);
    var r3 := r2 + [Do(id, [])];
    Advance(r3, id, slot);
    run' := r3 + [Do(id, [])];
  }

  /** What the runtime then does for a retry: complete, and enqueue again. */
  lemma RetryRound(run: seq<Step>, job: Job, at: int, until: int, id: nat) returns (run': seq<Step>)
    requires IsRun(run) && (forall other | other in AfterRun(run).calls :: other < id)
    requires var r, slot := AfterRun(run).redis, (job.queue, job.key);
             r.pending == map[] && r.active == map[slot := until] && r.jobs == map[job.key := job]
    ensures IsRun(run') && Waiting(AfterRun(run'), job, at, id + 2)
    ensures var slot := (job.queue, job.key); var t := Total(run, slot);
            Total(run', slot) == t.(completed := t.completed + 1, accepted := t.accepted + 1)
  {
    hide AfterRun, IsRun, Total;
    var slot := (job.queue, job.key);
    var taken := CompletePart(run, slot, id);
    var deleted := DeletePart(taken, slot, id);
    run' := EnqueuePart(deleted, job, at, id + 1);
  }

  lemma FirstEnqueue(job: Job, at: int) returns (run: seq<Step>)
    ensures IsRun(run) && Waiting(AfterRun(run), job, at, 1)
    ensures Total(run, (job.queue, job.key)) == NOTHING.(accepted := 1)
  {
    hide AfterRun, IsRun, Total;
    EmptyRun((job.queue, job.key));
    run := EnqueuePart([], job, at, 0);
  }

  /**
   * The transport keeps no count the runtime could ask for, and a completion even deletes
   * its own: a job that is retried each time is claimed any number of times, with no lease
   * released, revived or lost and nothing dead-lettered.
   */
  lemma {:induction false} RetriedWithoutEnd(job: Job, at: int, until: int, n: nat) returns (run: seq<Step>)
    requires at >= 0
    ensures IsRun(run) && Waiting(AfterRun(run), job, at, 1 + 3 * n)
    ensures Total(run, (job.queue, job.key)) == NOTHING.(accepted := n + 1, claimed := n, leased := n, completed := n)
  {
    hide AfterRun, IsRun, Total;
    if n == 0 {
      run := FirstEnqueue(job, at);
    } else {
      var before := RetriedWithoutEnd(job, at, until, n - 1);
      var id := 1 + 3 * (n - 1);
      var claimed := ClaimRound(before, job, at, until, id);
      run := RetryRound(claimed, job, at, until, id + 1);
    }
  }
}
