/**
 * The leased job queue (packages/queue/src/retry.ts): the operations of the transport
 * as steps on a state, the transport class that performs them, and what every sequence
 * of operations, by however many workers, keeps.
 */
module Queue {
  import opened Basics

  /** The fields of an envelope the queue looks at; runId is "" when there is none. */
  datatype Job = Job(key: string, queue: string, jobType: string, version: nat, runId: string, generation: int)

  datatype Pending = Pending(job: Job, availableAt: int)
  datatype Lease = Lease(job: Job, until: int, worker: string, attempts: nat)

  datatype State = State(
    pending: map<string, Pending>, active: map<string, Lease>, dead: set<string>, attempts: map<string, nat>)

  const EMPTY := State(map[], map[], {}, map[])

  /** One atomic operation; a claim is a Release followed by one Take for each job claimed. */
  datatype Op =
    | Enqueue(job: Job, availableAt: int)
    | Take(key: string, worker: string, until: int)
    | Beat(key: string, worker: string, until: int)
    | Complete(key: string, worker: string)
    | Bury(key: string)
    | Remove(key: string)
    | Release(now: int)

  predicate Live(s: State, key: string) { key in s.pending || key in s.active }

  predicate HeldBy(s: State, key: string, worker: string) {
    key in s.active && s.active[key].worker == worker
  }

  predicate Expired(s: State, key: string, now: int) { key in s.active && s.active[key].until <= now }

  function AttemptsOf(s: State, key: string): nat {
    if key in s.attempts then s.attempts[key] else 0
  }

  function Taken(s: State, key: string, worker: string, until: int): State
    requires key in s.pending
  {
    var attempts := AttemptsOf(s, key) + 1;
    State(s.pending - {key}, s.active[key := Lease(s.pending[key].job, until, worker, attempts)],
          s.dead, s.attempts[key := attempts])
  }

  function ExpiredKeys(s: State, now: int): set<string> {
    set key | key in s.active && s.active[key].until <= now
  }

  function MovedBack(s: State, keys: set<string>, now: int): State {
    s.(pending := s.pending + (map key | key in s.active && key in keys :: Pending(s.active[key].job, now)),
       active := s.active - keys)
  }

  function Released(s: State, now: int): State { MovedBack(s, ExpiredKeys(s, now), now) }

  lemma MoveOneMore(s: State, keys: set<string>, key: string, now: int)
    requires key in s.active && key !in keys
    ensures var t := MovedBack(s, keys, now);
            && key in t.active && t.active[key] == s.active[key]
            && MovedBack(s, keys + {key}, now) ==
               t.(pending := t.pending[key := Pending(s.active[key].job, now)], active := t.active - {key})
  {
  }

  lemma ExpiredKey(s: State, key: string, now: int)
    ensures key in ExpiredKeys(s, now) <==> key in s.active && s.active[key].until <= now
    ensures ExpiredKeys(s, now) <= s.active.Keys
  {
  }

  lemma ReleaseStep(s: State, due: set<string>, todo: set<string>, key: string, now: int)
    requires key in todo && key in s.active && due == ExpiredKeys(s, now)
    ensures var t, t' := MovedBack(s, due - todo, now), MovedBack(s, due - (todo - {key}), now);
            && key in t.active && t.active[key] == s.active[key]
            && (if s.active[key].until <= now
                then t' == t.(pending := t.pending[key := Pending(s.active[key].job, now)], active := t.active - {key})
                     && |due - (todo - {key})| == |due - todo| + 1
                else t' == t && due - (todo - {key}) == due - todo)
  {
    MoveOneMore(s, due - todo, key, now);
    if key in due {
      assert due - (todo - {key}) == due - todo + {key};
    } else {
      assert due - (todo - {key}) == due - todo;
    }
  }

  lemma MoveNone(s: State, now: int)
    ensures MovedBack(s, {}, now) == s
  {
    assert s.active - {} == s.active;
  }

  function Apply(s: State, op: Op): State {
    match op
    case Enqueue(job, availableAt) =>
      if Live(s, job.key) then s else s.(pending := s.pending[job.key := Pending(job, availableAt)])
    case Take(key, worker, until) =>
      if key in s.pending then Taken(s, key, worker, until) else s
    case Beat(key, worker, until) =>
      if HeldBy(s, key, worker) then s.(active := s.active[key := s.active[key].(until := until)]) else s
    case Complete(key, worker) =>
      if HeldBy(s, key, worker) then s.(active := s.active - {key}) else s
    case Bury(key) =>
      s.(pending := s.pending - {key}, active := s.active - {key}, dead := s.dead + {key})
    case Remove(key) =>
      s.(pending := s.pending - {key})
    case Release(now) => Released(s, now)
  }

  function After(ops: seq<Op>): State {
    if ops == [] then EMPTY else Apply(After(ops[..|ops| - 1]), ops[|ops| - 1])
  }

  // ---- What a history of operations did to one key -----------------------

  datatype Tally = Tally(
    accepted: nat, claimed: nat, expired: nat, completed: nat, removed: nat, buried: nat)

  function One(b: bool): nat { if b then 1 else 0 }

  predicate Accepts(s: State, op: Op, key: string) { op.Enqueue? && op.job.key == key && !Live(s, key) }
  predicate Claims(s: State, op: Op, key: string) { op.Take? && op.key == key && key in s.pending }
  predicate Expires(s: State, op: Op, key: string) { op.Release? && Expired(s, key, op.now) }
  predicate Completes(s: State, op: Op, key: string) { op.Complete? && op.key == key && HeldBy(s, key, op.worker) }
  predicate Removes(s: State, op: Op, key: string) { op.Remove? && op.key == key && key in s.pending }
  predicate Buries(s: State, op: Op, key: string) { op.Bury? && op.key == key && Live(s, key) }

  function Count(t: Tally, s: State, op: Op, key: string): Tally {
    Tally(t.accepted + One(Accepts(s, op, key)), t.claimed + One(Claims(s, op, key)),
          t.expired + One(Expires(s, op, key)), t.completed + One(Completes(s, op, key)),
          t.removed + One(Removes(s, op, key)), t.buried + One(Buries(s, op, key)))
  }

  function Total(ops: seq<Op>, key: string): Tally {
    if ops == [] then Tally(0, 0, 0, 0, 0, 0)
    else
      var before := ops[..|ops| - 1];
      Count(Total(before, key), After(before), ops[|ops| - 1], key)
  }

  /** Every accepted job is completed, removed or dead-lettered once, or still live, in one place. */
  ghost predicate Balanced(s: State, t: Tally, key: string) {
    && !(key in s.pending && key in s.active)
    && t.accepted == t.completed + t.removed + t.buried + One(Live(s, key))
    && t.claimed + t.removed + One(key in s.pending) <= t.accepted + t.expired
    && AttemptsOf(s, key) == t.claimed
    && (key in s.pending ==> s.pending[key].job.key == key)
    && (key in s.active ==> s.active[key].job.key == key && 1 <= s.active[key].attempts <= t.claimed)
  }

  lemma BalancedStep(s: State, t: Tally, op: Op, key: string)
    requires Balanced(s, t, key)
    ensures Balanced(Apply(s, op), Count(t, s, op, key), key)
  {
  }

  /** Exact conservation, in every history of operations. */
  lemma {:induction false} Conservation(ops: seq<Op>, key: string)
    ensures Balanced(After(ops), Total(ops, key), key)
  {
    if ops != [] {
      var before := ops[..|ops| - 1];
      Conservation(before, key);
      BalancedStep(After(before), Total(before, key), ops[|ops| - 1], key);
    }
  }

  lemma Extends(ops: seq<Op>, op: Op)
    ensures After(ops + [op]) == Apply(After(ops), op)
    ensures forall key :: Total(ops + [op], key) == Count(Total(ops, key), After(ops), op, key)
  {
    assert (ops + [op])[..|ops|] == ops;
  }

  lemma ReleaseApplies(ops: seq<Op>, now: int)
    ensures After(ops + [Release(now)]) == MovedBack(After(ops), ExpiredKeys(After(ops), now), now)
  {
    Extends(ops, Release(now));
  }

  /** A job whose lease has run out is claimable, by anyone, from the moment leases are released. */
  lemma ExpiredComeBack(ops: seq<Op>, key: string, now: int, later: int)
    requires Expired(After(ops), key, now) && now <= later
    ensures var s, s' := After(ops), After(ops + [Release(now)]);
            key !in s'.active && Eligible(s', key, s.active[key].job.queue, later) && s'.pending[key].job == s.active[key].job
            && AttemptsOf(s', key) == AttemptsOf(s, key)
  {
    ReleaseApplies(ops, now);
  }

  predicate EnqueuedIn(ops: seq<Op>, job: Job) {
    exists i | 0 <= i < |ops| :: ops[i].Enqueue? && ops[i].job == job
  }

  /** Every live job is one that was enqueued. */
  lemma {:induction false} JobsWereEnqueued(ops: seq<Op>, key: string)
    ensures var s := After(ops);
            && (key in s.pending ==> EnqueuedIn(ops, s.pending[key].job))
            && (key in s.active ==> EnqueuedIn(ops, s.active[key].job))
  {
    hide EnqueuedIn;
    if ops != [] {
      var before, op := ops[..|ops| - 1], ops[|ops| - 1];
      assert before + [op] == ops;
      JobsWereEnqueued(before, key);
      if key in After(before).pending { StillEnqueued(before, op, After(before).pending[key].job); }
      if key in After(before).active { StillEnqueued(before, op, After(before).active[key].job); }
      if op.Enqueue? { assert EnqueuedIn(ops, op.job) by { LastEnqueued(before, op); } }
    }
  }

  lemma StillEnqueued(ops: seq<Op>, op: Op, job: Job)
    requires EnqueuedIn(ops, job)
    ensures EnqueuedIn(ops + [op], job)
  {
    var i :| 0 <= i < |ops| && ops[i].Enqueue? && ops[i].job == job;
    assert (ops + [op])[i] == ops[i];
  }

  lemma LastEnqueued(ops: seq<Op>, op: Op)
    requires op.Enqueue?
    ensures EnqueuedIn(ops + [op], op.job)
  {
    assert (ops + [op])[|ops|] == op;
  }

  // ---- Leases are exclusive ----------------------------------------------

  predicate ClaimsAt(ops: seq<Op>, i: nat, key: string)
    requires i < |ops|
  {
    Claims(After(ops[..i]), ops[i], key)
  }

  predicate AcceptsAt(ops: seq<Op>, i: nat, key: string)
    requires i < |ops|
  {
    Accepts(After(ops[..i]), ops[i], key)
  }

  /** The last lease end a worker was granted between its claim at i and place m. */
  function LeaseEnd(ops: seq<Op>, i: nat, m: nat): int
    requires i < m <= |ops| && ops[i].Take?
  {
    var op := ops[m - 1];
    if m == i + 1 then ops[i].until
    else if op.Beat? && op.key == ops[i].key && op.worker == ops[i].worker then op.until
    else LeaseEnd(ops, i, m - 1)
  }

  /** A second holder becomes possible: the job was queued anew, or the lease was seen to be over. */
  predicate Freed(ops: seq<Op>, i: nat, m: nat)
    requires i < m < |ops| && ops[i].Take?
  {
    || AcceptsAt(ops, m, ops[i].key)
    || (ops[m].Release? && LeaseEnd(ops, i, m) <= ops[m].now)
  }

  predicate OnlyHolder(s: State, key: string, worker: string, end: int) {
    && key !in s.pending
    && (key in s.active ==> s.active[key].worker == worker && s.active[key].until == end)
  }

  lemma HolderStep(s: State, op: Op, key: string, worker: string, end: int)
    requires OnlyHolder(s, key, worker, end)
    requires !Accepts(s, op, key) && !(op.Release? && end <= op.now)
    ensures OnlyHolder(Apply(s, op), key, worker,
              if op.Beat? && op.key == key && op.worker == worker then op.until else end)
  {
  }

  lemma {:induction false} StillHeld(ops: seq<Op>, i: nat, m: nat, key: string)
    requires i < m <= |ops| && ClaimsAt(ops, i, key)
    requires forall n | i < n < m :: !Freed(ops, i, n)
    ensures OnlyHolder(After(ops[..m]), key, ops[i].worker, LeaseEnd(ops, i, m))
  {
    hide Released;
    var before, op := ops[..m - 1], ops[m - 1];
    assert ops[..m] == before + [op];
    Extends(before, op);
    if m > i + 1 {
      StillHeld(ops, i, m - 1, key);
      assert !Freed(ops, i, m - 1);
      HolderStep(After(before), op, key, ops[i].worker, LeaseEnd(ops, i, m - 1));
    }
  }

  /**
   * Between two claims of one key the job was enqueued anew, or leases were released at a
   * time not before the end of the last lease the first claimant was granted.
   */
  lemma ExclusiveLease(ops: seq<Op>, i: nat, j: nat, key: string)
    requires i < j < |ops| && ClaimsAt(ops, i, key) && ClaimsAt(ops, j, key)
    ensures exists m | i < m < j :: Freed(ops, i, m)
  {
    if forall m | i < m < j :: !Freed(ops, i, m) {
      StillHeld(ops, i, j, key);
      assert false;
    }
  }

  /** While a lease lasts, whoever else completes, extends or takes the job changes nothing. */
  lemma OthersAreFenced(s: State, key: string, worker: string, op: Op)
    requires HeldBy(s, key, worker) && key !in s.pending
    requires op.Enqueue? || ((op.Take? || op.Complete? || op.Beat?) && op.key == key && op.worker != worker)
             || op.Remove? || (op.Release? && op.now < s.active[key].until)
    ensures var s' := Apply(s, op); HeldBy(s', key, worker) && s'.active[key] == s.active[key] && key !in s'.pending
  {
  }

  // ---- The transport -----------------------------------------------------

  const BATCH: nat := 10

  predicate Eligible(s: State, key: string, queue: string, now: int) {
    key in s.pending && s.pending[key].job.queue == queue && s.pending[key].availableAt <= now
  }

  function Takes(jobs: seq<Job>, worker: string, until: int): seq<Op> {
    if jobs == [] then []
    else Takes(jobs[..|jobs| - 1], worker, until) + [Take(jobs[|jobs| - 1].key, worker, until)]
  }

  /** Distinct eligible jobs of s, earliest first. */
  ghost predicate InTurn(s: State, jobs: seq<Job>, queue: string, now: int) {
    && (forall i | 0 <= i < |jobs| ::
          Eligible(s, jobs[i].key, queue, now) && s.pending[jobs[i].key].job == jobs[i])
    && (forall i, j | 0 <= i < j < |jobs| ::
          jobs[i].key != jobs[j].key
          && s.pending[jobs[i].key].availableAt <= s.pending[jobs[j].key].availableAt)
  }

  /** A claim takes the earliest jobs that are due, up to a full batch. */
  ghost predicate FairBatch(s: State, jobs: seq<Job>, queue: string, now: int) {
    && |jobs| <= 10 && InTurn(s, jobs, queue, now)
    && forall key | Eligible(s, key, queue, now) && (forall i | 0 <= i < |jobs| :: jobs[i].key != key) ::
         && |jobs| == 10
         && forall i | 0 <= i < |jobs| ::
              s.pending[jobs[i].key].availableAt <= s.pending[key].availableAt
  }

  datatype Completion = Completed | Fenced | Missing
  datatype Removal = WasRemoved | IsActive | NotFound

  lemma BuryApplies(ops: seq<Op>, key: string)
    ensures var s := After(ops);
            After(ops + [Bury(key)]) == State(s.pending - {key}, s.active - {key}, s.dead + {key}, s.attempts)
  {
    Extends(ops, Bury(key));
  }

  class InMemoryTransport {
    var pending: map<string, Pending>
    var active: map<string, Lease>
    var dead: set<string>
    var attemptCount: map<string, nat>
    ghost var log: seq<Op>

    function Now(): State
      reads this
    {
      State(pending, active, dead, attemptCount)
    }

    ghost predicate Valid()
      reads this
    {
      Now() == After(log)
    }

    constructor ()
      ensures Valid() && log == []
    {
      pending, active, dead, attemptCount, log := map[], map[], {}, map[], [];
    }

    method Enqueue(job: Job, delayMs: int, now: int) returns (accepted: bool)
      requires Valid()
      modifies this
      ensures Valid() && log == old(log) + [Op.Enqueue(job, now + delayMs)]
      ensures accepted <==> !Live(old(Now()), job.key)
    {
      Extends(log, Op.Enqueue(job, now + delayMs));
      log := log + [Op.Enqueue(job, now + delayMs)];
      if job.key in pending || job.key in active { return false; }
      pending := pending[job.key := Pending(job, now + delayMs)];
      return true;
    }

    method Heartbeat(key: string, leaseMs: int, worker: string, now: int) returns (held: bool)
      requires Valid()
      modifies this
      ensures Valid() && log == old(log) + [Beat(key, worker, now + leaseMs)]
      ensures held <==> HeldBy(old(Now()), key, worker)
    {
      Extends(log, Beat(key, worker, now + leaseMs));
      log := log + [Beat(key, worker, now + leaseMs)];
      if key !in active || active[key].worker != worker { return false; }
      active := active[key := active[key].(until := now + leaseMs)];
      return true;
    }

    method Complete(key: string, worker: string) returns (outcome: Completion)
      requires Valid()
      modifies this
      ensures Valid() && log == old(log) + [Op.Complete(key, worker)]
      ensures outcome.Completed? <==> HeldBy(old(Now()), key, worker)
      ensures outcome.Missing? <==> key !in old(active)
      ensures !outcome.Completed? ==> Now() == old(Now())
    {
      Extends(log, Op.Complete(key, worker));
      log := log + [Op.Complete(key, worker)];
      if key !in active { return Missing; }
      if active[key].worker != worker { return Fenced; }
      active := active - {key};
      return Completed;
    }

    method DeadLetter(key: string)
      requires Valid()
      modifies this
      ensures Valid() && log == old(log) + [Bury(key)]
      ensures !Live(Now(), key) && key in dead
    {
      hide After, Apply;
      BuryApplies(log, key);
      log := log + [Bury(key)];
      active := active - {key};
      pending := pending - {key};
      dead := dead + {key};
    }

    method Remove(key: string) returns (outcome: Removal)
      requires Valid()
      modifies this
      ensures Valid() && log == old(log) + [Op.Remove(key)]
      ensures outcome.WasRemoved? <==> key in old(pending)
      ensures outcome.IsActive? <==> key in old(active)
      ensures !outcome.WasRemoved? ==> Now() == old(Now())
    {
      Conservation(log, key);
      Extends(log, Op.Remove(key));
      log := log + [Op.Remove(key)];
      if key in pending { pending := pending - {key}; return WasRemoved; }
      assert pending - {key} == pending;
      if key in active { return IsActive; }
      return NotFound;
    }

    method ReleaseExpiredLeases(now: int) returns (released: nat)
      requires Valid()
      modifies this
      ensures Valid() && log == old(log) + [Release(now)]
      ensures Now() == Released(old(Now()), now)
      ensures released == |ExpiredKeys(old(Now()), now)|
    {
      hide MovedBack, After, Apply, ExpiredKeys;
      ghost var s := Now();
      ghost var due := ExpiredKeys(s, now);
      var todo := active.Keys;
      released := 0;
      MoveNone(s, now);
      assert due - todo == {} by { ExpiredKey(s, "", now); }
      while todo != {}
        invariant todo <= s.active.Keys
        invariant Now() == MovedBack(s, due - todo, now) && log == old(log)
        invariant released == |due - todo|
      {
        var key :| key in todo;
        ReleaseStep(s, due, todo, key, now);
        var held := active[key];
        if held.until <= now {
          active := active - {key};
          pending := pending[key := Pending(held.job, now)];
          released := released + 1;
        }
        todo := todo - {key};
      }
      assert due - {} == due;
      ReleaseApplies(log, now);
      log := log + [Release(now)];
    }

    /** Claims for a worker; the clock reads seenAt before the release and now after it. */
    method Claim(queue: string, leaseMs: int, worker: string, seenAt: int, now: int) returns (claimed: seq<Job>)
      requires Valid()
      modifies this
      ensures Valid() && log == old(log) + [Release(seenAt)] + Takes(claimed, worker, now + leaseMs)
      ensures FairBatch(Released(old(Now()), seenAt), claimed, queue, now)
    {
      hide Released, After, Apply, FairBatch, Sweep, Takes, Taken, MovedBack;
      var _ := ReleaseExpiredLeases(seenAt);
      ReleaseApplies(old(log), seenAt);
      ghost var s := Now();
      ghost var base := log;
      AllKeyed(base);
      claimed := [];
      var rest := pending;
      SweepStarts(s, base, queue, now, worker, now + leaseMs);
      while rest != map[] && |claimed| < BATCH
        invariant Valid() && log == base + Takes(claimed, worker, now + leaseMs)
        invariant Sweep(s, claimed, rest, queue, now)
        invariant forall key | key in rest :: key in pending && pending[key] == rest[key]
        decreases |rest|
      {
        var key := Earliest(rest);
        var entry := rest[key];
        SweepPast(s, claimed, rest, key, queue, now);
        rest := rest - {key};
        if entry.job.queue == queue && entry.availableAt <= now {
          TakePending(key, worker, now + leaseMs);
          TakesSnoc(base, claimed, entry.job, worker, now + leaseMs);
          claimed := claimed + [entry.job];
        }
      }
      SweptFair(s, claimed, rest, queue, now);
    }

    method TakePending(key: string, worker: string, until: int)
      requires Valid() && key in pending
      modifies this
      ensures Valid() && log == old(log) + [Take(key, worker, until)] && pending == old(pending) - {key}
    {
      hide After, Apply;
      TakeApplies(log, key, worker, until);
      log := log + [Take(key, worker, until)];
      var entry := pending[key];
      var attempts := (if key in attemptCount then attemptCount[key] else 0) + 1;
      attemptCount := attemptCount[key := attempts];
      pending := pending - {key};
      active := active[key := Lease(entry.job, until, worker, attempts)];
    }
  }

  method Earliest(entries: map<string, Pending>) returns (key: string)
    requires entries != map[]
    ensures key in entries
    ensures forall other | other in entries :: entries[key].availableAt <= entries[other].availableAt
  {
    key :| key in entries;
    var todo := entries.Keys;
    while todo != {}
      invariant key in entries && todo <= entries.Keys
      invariant forall other | other in entries && other !in todo ::
                  entries[key].availableAt <= entries[other].availableAt
    {
      var other :| other in todo;
      if entries[other].availableAt < entries[key].availableAt { key := other; }
      todo := todo - {other};
    }
  }

  ghost predicate Keyed(s: State) { forall key | key in s.pending :: s.pending[key].job.key == key }

  lemma AllKeyed(ops: seq<Op>)
    ensures Keyed(After(ops))
  {
    forall key | key in After(ops).pending ensures After(ops).pending[key].job.key == key {
      Conservation(ops, key);
    }
  }

  lemma TakeApplies(ops: seq<Op>, key: string, worker: string, until: int)
    requires key in After(ops).pending
    ensures After(ops + [Take(key, worker, until)]) == Taken(After(ops), key, worker, until)
  {
    Extends(ops, Take(key, worker, until));
  }

  lemma TakesSnoc(base: seq<Op>, jobs: seq<Job>, job: Job, worker: string, until: int)
    ensures base + Takes(jobs + [job], worker, until) ==
            base + Takes(jobs, worker, until) + [Take(job.key, worker, until)]
  {
    assert (jobs + [job])[..|jobs|] == jobs;
  }

  /** Midway through a claim: what is not in rest was claimed or does not qualify, and is not later. */
  ghost predicate Sweep(s: State, jobs: seq<Job>, rest: map<string, Pending>, queue: string, now: int) {
    && Keyed(s) && |jobs| <= BATCH && InTurn(s, jobs, queue, now)
    && (forall key | key in rest :: key in s.pending && rest[key] == s.pending[key])
    && (forall key | Eligible(s, key, queue, now) && key !in rest ::
          exists i | 0 <= i < |jobs| :: jobs[i].key == key)
    && (forall i, key | 0 <= i < |jobs| && key in rest ::
          jobs[i].key != key && s.pending[jobs[i].key].availableAt <= rest[key].availableAt)
  }

  lemma SweepStarts(s: State, base: seq<Op>, queue: string, now: int, worker: string, until: int)
    requires Keyed(s)
    ensures Sweep(s, [], s.pending, queue, now) && base + Takes([], worker, until) == base
  {
  }

  lemma SweepPast(s: State, jobs: seq<Job>, rest: map<string, Pending>, key: string, queue: string, now: int)
    requires Sweep(s, jobs, rest, queue, now) && key in rest && |jobs| < BATCH
    requires forall other | other in rest :: rest[key].availableAt <= rest[other].availableAt
    ensures rest[key].job.key == key
    ensures var due := rest[key].job.queue == queue && rest[key].availableAt <= now;
            Sweep(s, if due then jobs + [rest[key].job] else jobs, rest - {key}, queue, now)
  {
    if Eligible(s, key, queue, now) {
      SweepTakes(s, jobs, rest, key, queue, now);
    }
  }

  lemma SweepTakes(s: State, jobs: seq<Job>, rest: map<string, Pending>, key: string, queue: string, now: int)
    requires Sweep(s, jobs, rest, queue, now) && key in rest && |jobs| < BATCH
    requires forall other | other in rest :: rest[key].availableAt <= rest[other].availableAt
    requires Eligible(s, key, queue, now)
    ensures Sweep(s, jobs + [rest[key].job], rest - {key}, queue, now)
  {
    hide Eligible;
    var jobs' := jobs + [rest[key].job];
    assert jobs'[|jobs|].key == key;
    assert InTurn(s, jobs', queue, now);
    forall other | Eligible(s, other, queue, now) && other !in rest - {key}
      ensures exists i | 0 <= i < |jobs'| :: jobs'[i].key == other
    {
      if other != key {
        var i :| 0 <= i < |jobs| && jobs[i].key == other;
        assert jobs'[i].key == other;
      }
    }
  }

  lemma SweptFair(s: State, jobs: seq<Job>, rest: map<string, Pending>, queue: string, now: int)
    requires Sweep(s, jobs, rest, queue, now) && (rest == map[] || |jobs| >= BATCH)
    ensures FairBatch(s, jobs, queue, now)
  {
    forall key | Eligible(s, key, queue, now) && (forall i | 0 <= i < |jobs| :: jobs[i].key != key)
      ensures key in rest
    {
    }
  }

  // ---- Cancellation ------------------------------------------------------

  function Generation(current: map<string, nat>, runId: string): nat {
    if runId in current then current[runId] else 0
  }

  predicate FencedOff(current: map<string, nat>, job: Job) {
    job.runId != "" && job.generation < Generation(current, job.runId)
  }

  class CancellationFence {
    var current: map<string, nat>

    constructor ()
      ensures current == map[]
    {
      current := map[];
    }

    /** Cancels every job of the run that was built for an earlier generation, and no other. */
    method Bump(runId: string) returns (next: nat)
      modifies this
      ensures current == old(current)[runId := next]
      ensures forall job: Job :: FencedOff(current, job) <==>
                FencedOff(old(current), job) || (runId != "" && job.runId == runId && job.generation < next)
      ensures forall job: Job | job.runId == runId && job.generation == next :: !FencedOff(current, job)
    {
      next := (if runId in current then current[runId] else 0) + 1;
      current := current[runId := next];
    }

    method IsFenced(job: Job) returns (fenced: bool)
      ensures fenced <==> FencedOff(current, job)
    {
      if job.runId == "" { return false; }
      return job.generation < (if job.runId in current then current[job.runId] else 0);
    }
  }

  // ---- Backoff -----------------------------------------------------------

  function Pow2(n: nat): nat { if n == 0 then 1 else 2 * Pow2(n - 1) }

  /** The longest delay in seconds before an attempt, counted from 1. */
  function Ceiling(attempt: int, base: nat, cap: nat): Option<nat> {
    if attempt < 1 then None else Some(Min(cap, base * Pow2(attempt - 1)))
  }

  function Share(r: real, a: real): real { r * a }

  function JitterMs(random: real, seconds: nat): int { (Share(random, seconds as real) * 1000.0).Floor }

  function BackoffDelayMs(attempt: int, base: nat, cap: nat, random: real): (delay: Option<int>) {
    match Ceiling(attempt, base, cap)
    case None => None
    case Some(ceiling) => Some(JitterMs(random, ceiling))
  }

  lemma DoublesOnce(base: nat, i: nat)
    requires i >= 1
    ensures base * Pow2(i) == base * Pow2(i - 1) * 2
  {
  }

  /** Nothing stands for the exception an attempt below 1 raises. */
  method ComputeBackoff(attempt: int, base: nat, cap: nat, random: real) returns (delay: Option<int>)
    ensures delay == BackoffDelayMs(attempt, base, cap, random)
  {
    hide Share;
    if attempt < 1 { return None; }
    var seconds := base;
    for i := 1 to attempt
      invariant seconds == base * Pow2(i - 1)
    {
      DoublesOnce(base, i);
      seconds := seconds * 2;
    }
    if seconds > cap { seconds := cap; }
    delay := Some((Share(random, seconds as real) * 1000.0).Floor);
  }

  /** The delay is the random share of the ceiling, in whole milliseconds. */
  lemma BackoffIsShare(attempt: int, base: nat, cap: nat, random: real)
    requires attempt >= 1
    ensures var delay := BackoffDelayMs(attempt, base, cap, random);
            delay.Some? && var share := random * (Min(cap, base * Pow2(attempt - 1)) as real) * 1000.0;
            delay.value as real <= share < (delay.value + 1) as real
  {
    hide Pow2;
  }

  /** Full jitter: below the ceiling, which doubles until it meets the cap; later attempts wait no less. */
  lemma BackoffIsJittered(attempt: int, later: int, base: nat, cap: nat, random: real)
    requires 0.0 <= random < 1.0 && 1 <= attempt <= later
    ensures var delay, next := BackoffDelayMs(attempt, base, cap, random), BackoffDelayMs(later, base, cap, random);
            var most := 1000 * Min(cap, base * Pow2(attempt - 1));
            delay.Some? && next.Some? && 0 <= delay.value <= next.value && delay.value <= Max(0, most - 1)
  {
    hide Pow2, JitterMs;
    Pow2Grows(attempt - 1, later - 1);
    ScaleUp(base, Pow2(attempt - 1), Pow2(later - 1));
    JitterBelow(random, Ceiling(attempt, base, cap).value, Ceiling(later, base, cap).value);
  }

  lemma ScaleUp(a: nat, b: nat, c: nat)
    requires b <= c
    ensures a * b <= a * c
  {
  }

  lemma JitterBelow(random: real, c: nat, d: nat)
    requires 0.0 <= random < 1.0 && c <= d
    ensures 0 <= JitterMs(random, c) <= JitterMs(random, d) && JitterMs(random, c) <= Max(0, 1000 * c - 1)
  {
    hide Share;
    var x, y := Share(random, c as real), Share(random, d as real);
    Shrink(random, c as real, d as real);
    FloorGrows(0.0, x * 1000.0);
    FloorGrows(x * 1000.0, y * 1000.0);
    FloorBelow(x * 1000.0, 1000 * c);
  }

  lemma FloorGrows(x: real, y: real)
    requires x <= y
    ensures x.Floor <= y.Floor
  {
  }

  lemma FloorBelow(x: real, n: nat)
    requires x < n as real || (x == 0.0 && n == 0)
    ensures x.Floor <= Max(0, n - 1)
  {
  }

  lemma Shrink(r: real, a: real, b: real)
    requires 0.0 <= r < 1.0 && 0.0 <= a <= b
    ensures 0.0 <= Share(r, a) <= Share(r, b) && (Share(r, a) < a || (a == 0.0 && Share(r, a) == 0.0))
  {
    ShrinkBelow(r, a);
    assert r * (b - a) >= 0.0;
    assert r * b == r * a + r * (b - a);
  }

  lemma ShrinkBelow(r: real, a: real)
    requires 0.0 <= r < 1.0 && 0.0 <= a
    ensures 0.0 <= r * a && (r * a < a || a == 0.0)
  {
    if a > 0.0 {
      assert (1.0 - r) * a > 0.0;
      assert (1.0 - r) * a == a - r * a;
    }
  }

  lemma {:induction false} Pow2Grows(m: nat, n: nat)
    requires m <= n
    ensures 1 <= Pow2(m) <= Pow2(n)
  {
    if m < n { Pow2Grows(m, n - 1); } else if m > 0 { Pow2Grows(m - 1, n - 1); }
  }
}
