/**
 * The calls of the Redis transport (packages/queue/src/redis-transport.ts) one at a time:
 * what each does to the store when no other call gets between its commands.
 */
module RedisCalls {
  import opened Basics
  import opened RedisQueue
  import Queue

  /** The next n commands of a call; scans are answered before. */
  function Play(r: Redis, pc: Place, n: nat): (Redis, Place)
    decreases n
  {
    if n == 0 then (r, pc) else Play(Command(r, pc), Continue(r, pc, []), n - 1)
  }

  lemma {:induction false} PlayOn(r: Redis, pc: Place, m: nat, n: nat)
    ensures Play(r, pc, m + n) == Play(Play(r, pc, m).0, Play(r, pc, m).1, n)
    decreases m
  {
    hide Command, Continue;
    if m > 0 { PlayOn(Command(r, pc), Continue(r, pc, []), m - 1, n); }
  }

  function DoAll(sys: Sys, id: nat, n: nat): Sys
    decreases n
  {
    if n == 0 then sys else DoAll(Next(sys, Do(id, [])), id, n - 1)
  }

  /** They are steps of the machine. */
  lemma {:induction false} PlayIsSteps(sys: Sys, id: nat, n: nat)
    requires id in sys.calls
    ensures var (r, pc) := Play(sys.redis, sys.calls[id], n); DoAll(sys, id, n) == Sys(r, sys.calls[id := pc])
    decreases n
  {
    hide Command, Continue;
    if n == 0 {
      assert sys.calls[id := sys.calls[id]] == sys.calls;
    } else {
      PlayIsSteps(Next(sys, Do(id, [])), id, n - 1);
    }
  }

  /** The command of a call leaves the store so, and the call there. */
  ghost predicate Moves(r: Redis, pc: Place, r': Redis, pc': Place) { Command(r, pc) == r' && Continue(r, pc, []) == pc' }

  lemma Played1(r: Redis, pc: Place, r1: Redis, pc1: Place)
    requires Moves(r, pc, r1, pc1)
    ensures Play(r, pc, 1) == (r1, pc1)
  {
    hide Command, Continue;
    assert Play(r1, pc1, 0) == (r1, pc1);
  }

  lemma Played2(r: Redis, pc: Place, r1: Redis, pc1: Place, r2: Redis, pc2: Place)
    requires Moves(r, pc, r1, pc1) && Moves(r1, pc1, r2, pc2)
    ensures Play(r, pc, 2) == (r2, pc2)
  {
    hide Moves, Play;
    Played1(r, pc, r1, pc1);
    Played1(r1, pc1, r2, pc2);
    PlayOn(r, pc, 1, 1);
  }

  lemma Played4(r: Redis, pc: Place, r2: Redis, pc2: Place, r4: Redis, pc4: Place)
    requires Play(r, pc, 2) == (r2, pc2) && Play(r2, pc2, 2) == (r4, pc4)
    ensures Play(r, pc, 4) == (r4, pc4)
  {
    hide Play;
    PlayOn(r, pc, 2, 2);
  }

  lemma Returns(r: Redis, result: Result)
    ensures Moves(r, Returned(result), r, Returned(result))
  {
  }

  // ---- Calls on one key --------------------------------------------------

  lemma Adds(r: Redis, job: Job, at: int)
    ensures Moves(r, EnqueueAdd(job, at), r.(pending := r.pending[(job.queue, job.key) := at]),
                  EnqueueStore(job, (job.queue, job.key) !in r.pending))
  {
  }

  lemma Stores(r: Redis, job: Job, added: bool)
    ensures Moves(r, EnqueueStore(job, added), r.(jobs := r.jobs[job.key := job]), Returned(Enqueued(added)))
  {
  }

  /** Queues the job for that time, stores its payload, and says whether the key was not queued before. */
  lemma EnqueueAlone(r: Redis, job: Job, at: int)
    ensures var slot := (job.queue, job.key);
            Play(r, EnqueueAdd(job, at), 2) ==
            (r.(pending := r.pending[slot := at], jobs := r.jobs[job.key := job]), Returned(Enqueued(slot !in r.pending)))
  {
    hide Moves, Play;
    var slot := (job.queue, job.key);
    var r1 := r.(pending := r.pending[slot := at]);
    Adds(r, job, at);
    Stores(r1, job, slot !in r.pending);
    Played2(r, EnqueueAdd(job, at), r1, EnqueueStore(job, slot !in r.pending),
            r1.(jobs := r1.jobs[job.key := job]), Returned(Enqueued(slot !in r.pending)));
  }

  lemma Beats(r: Redis, key: string, until: int, slot: Slot)
    ensures key !in r.jobs ==> Moves(r, BeatRead(key, until), r, Returned(Beaten(false)))
    ensures key in r.jobs && slot == (r.jobs[key].queue, key) ==> Moves(r, BeatRead(key, until), r, BeatExtend(slot, until))
    ensures Moves(r, BeatExtend(slot, until), r.(active := r.active[slot := until]), Returned(Beaten(true)))
  {
  }

  /** Extends the lease of a key with a payload, or puts one in place. */
  lemma HeartbeatAlone(r: Redis, key: string, until: int)
    ensures Play(r, BeatRead(key, until), 2) ==
            if key in r.jobs
            then (r.(active := r.active[(r.jobs[key].queue, key) := until]), Returned(Beaten(true)))
            else (r, Returned(Beaten(false)))
  {
    hide Moves, Play;
    if key in r.jobs {
      var slot := (r.jobs[key].queue, key);
      Beats(r, key, until, slot);
      Played2(r, BeatRead(key, until), r, BeatExtend(slot, until),
              r.(active := r.active[slot := until]), Returned(Beaten(true)));
    } else {
      Beats(r, key, until, ("", ""));
      Returns(r, Beaten(false));
      Played2(r, BeatRead(key, until), r, Returned(Beaten(false)), r, Returned(Beaten(false)));
    }
  }

  lemma StaysReturned(r: Redis, pc: Place, result: Result)
    requires Play(r, pc, 2) == (r, Returned(result))
    ensures Play(r, pc, 4) == (r, Returned(result))
  {
    hide Moves, Play;
    Returns(r, result);
    Played2(r, Returned(result), r, Returned(result), r, Returned(result));
    Played4(r, pc, r, Returned(result), r, Returned(result));
  }

  lemma Completes(r: Redis, slot: Slot)
    ensures slot.1 !in r.jobs ==> Moves(r, CompleteRead(slot.1), r, Returned(Finished(false)))
    ensures slot.1 in r.jobs && slot.0 == r.jobs[slot.1].queue ==> Moves(r, CompleteRead(slot.1), r, CompleteTake(slot))
    ensures slot in r.active ==> Moves(r, CompleteTake(slot), r.(active := r.active - {slot}), CompleteAttempts(slot.1))
    ensures slot !in r.active ==> Moves(r, CompleteTake(slot), r, Returned(Finished(false)))
  {
    assert slot !in r.active ==> r.active - {slot} == r.active;
  }

  lemma Forgets(r: Redis, key: string)
    ensures Moves(r, CompleteAttempts(key), r.(attempts := r.attempts - {key}), CompleteJob(key))
    ensures Moves(r, CompleteJob(key), r.(jobs := r.jobs - {key}), Returned(Finished(true)))
  {
  }

  /** Ends an active job and forgets its attempts and payload; any other is missing and stays. */
  lemma CompleteAlone(r: Redis, key: string)
    ensures Play(r, CompleteRead(key), 4) ==
            if key in r.jobs && (r.jobs[key].queue, key) in r.active
            then (r.(active := r.active - {(r.jobs[key].queue, key)}, attempts := r.attempts - {key}, jobs := r.jobs - {key}),
                  Returned(Finished(true)))
            else (r, Returned(Finished(false)))
  {
    hide Moves, Play;
    var slot := if key in r.jobs then (r.jobs[key].queue, key) else ("", key);
    Completes(r, slot);
    Returns(r, Finished(false));
    if key !in r.jobs {
      Played2(r, CompleteRead(key), r, Returned(Finished(false)), r, Returned(Finished(false)));
      StaysReturned(r, CompleteRead(key), Finished(false));
    } else if slot !in r.active {
      Played2(r, CompleteRead(key), r, CompleteTake(slot), r, Returned(Finished(false)));
      StaysReturned(r, CompleteRead(key), Finished(false));
    } else {
      var r2 := r.(active := r.active - {slot});
      var r3 := r2.(attempts := r2.attempts - {key});
      var r4 := r3.(jobs := r3.jobs - {key});
      Forgets(r2, key);
      Forgets(r3, key);
      Played2(r, CompleteRead(key), r, CompleteTake(slot), r2, CompleteAttempts(key));
      Played2(r2, CompleteAttempts(key), r3, CompleteJob(key), r4, Returned(Finished(true)));
      Played4(r, CompleteRead(key), r2, CompleteAttempts(key), r4, Returned(Finished(true)));
    }
  }

  lemma Buries(r: Redis, slot: Slot, at: int)
    ensures slot.1 !in r.jobs ==> Moves(r, DeadRead(slot.1, at), r, Returned(DeadLettered))
    ensures slot.1 in r.jobs && slot.0 == r.jobs[slot.1].queue ==> Moves(r, DeadRead(slot.1, at), r, DeadTake(slot, at))
    ensures Moves(r, DeadTake(slot, at), r.(active := r.active - {slot}), DeadAdd(slot, at))
    ensures Moves(r, DeadAdd(slot, at), r.(dead := r.dead[slot := at]), DeadAttempts(slot.1))
    ensures Moves(r, DeadAttempts(slot.1), r.(attempts := r.attempts - {slot.1}), Returned(DeadLettered))
  {
  }

  /** Moves a key with a payload to the dead letters of its queue, with this time, and forgets its attempts. */
  lemma DeadLetterAlone(r: Redis, key: string, at: int)
    ensures Play(r, DeadRead(key, at), 4) ==
            if key in r.jobs
            then (r.(active := r.active - {(r.jobs[key].queue, key)}, dead := r.dead[(r.jobs[key].queue, key) := at],
                     attempts := r.attempts - {key}),
                  Returned(DeadLettered))
            else (r, Returned(DeadLettered))
  {
    hide Moves, Play;
    var slot := if key in r.jobs then (r.jobs[key].queue, key) else ("", key);
    Buries(r, slot, at);
    if key !in r.jobs {
      Returns(r, DeadLettered);
      Played2(r, DeadRead(key, at), r, Returned(DeadLettered), r, Returned(DeadLettered));
      StaysReturned(r, DeadRead(key, at), DeadLettered);
    } else {
      var r2 := r.(active := r.active - {slot});
      var r3 := r2.(dead := r2.dead[slot := at]);
      var r4 := r3.(attempts := r3.attempts - {key});
      Buries(r2, slot, at);
      Buries(r3, slot, at);
      Played2(r, DeadRead(key, at), r, DeadTake(slot, at), r2, DeadAdd(slot, at));
      Played2(r2, DeadAdd(slot, at), r3, DeadAttempts(key), r4, Returned(DeadLettered));
      Played4(r, DeadRead(key, at), r2, DeadAdd(slot, at), r4, Returned(DeadLettered));
    }
  }

  lemma RemoveStarts(r: Redis, slot: Slot)
    ensures slot.1 !in r.jobs ==> Moves(r, RemoveRead(slot.1), r, Returned(Removed(false, false)))
    ensures slot.1 in r.jobs && slot.0 == r.jobs[slot.1].queue ==> Moves(r, RemoveRead(slot.1), r, RemovePending(slot))
  {
  }

  lemma RemovesPending(r: Redis, slot: Slot)
    ensures Moves(r, RemovePending(slot), r.(pending := r.pending - {slot}), RemoveActive(slot, slot in r.pending))
  {
  }

  lemma RemovesActive(r: Redis, slot: Slot, was: bool)
    ensures Moves(r, RemoveActive(slot, was), r.(active := r.active - {slot}), RemoveJob(slot.1, was, slot in r.active))
  {
  }

  lemma RemovesJob(r: Redis, key: string, was: bool, held: bool)
    ensures Moves(r, RemoveJob(key, was, held), r.(jobs := r.jobs - {key}), Returned(Removed(was, held)))
  {
  }

  /** Takes a key with a payload off both sets and deletes the payload, and says where it was. */
  lemma RemoveAlone(r: Redis, key: string)
    ensures Play(r, RemoveRead(key), 4) ==
            if key in r.jobs
            then var slot := (r.jobs[key].queue, key);
                 (r.(pending := r.pending - {slot}, active := r.active - {slot}, jobs := r.jobs - {key}),
                  Returned(Removed(slot in r.pending, slot in r.active)))
            else (r, Returned(Removed(false, false)))
  {
    hide Moves, Play;
    var slot := if key in r.jobs then (r.jobs[key].queue, key) else ("", key);
    var was, held := slot in r.pending, slot in r.active;
    RemoveStarts(r, slot);
    if key !in r.jobs {
      Returns(r, Removed(false, false));
      Played2(r, RemoveRead(key), r, Returned(Removed(false, false)), r, Returned(Removed(false, false)));
      StaysReturned(r, RemoveRead(key), Removed(false, false));
    } else {
      var r2 := r.(pending := r.pending - {slot});
      var r3 := r2.(active := r2.active - {slot});
      var r4 := r3.(jobs := r3.jobs - {key});
      RemovesPending(r, slot);
      RemovesActive(r2, slot, was);
      RemovesJob(r3, key, was, held);
      Played2(r, RemoveRead(key), r, RemovePending(slot), r2, RemoveActive(slot, was));
      Played2(r2, RemoveActive(slot, was), r3, RemoveJob(key, was, held), r4, Returned(Removed(was, held)));
      Played4(r, RemoveRead(key), r2, RemoveActive(slot, was), r4, Returned(Removed(was, held)));
    }
  }

  // ---- Claims ------------------------------------------------------------

  /** One key is claimed: leased to that time, and counted once more if it has a payload. */
  function ClaimKey(r: Redis, slot: Slot, until: int): Redis {
    r.(pending := r.pending - {slot}, active := r.active[slot := until],
       attempts := if slot.1 !in r.jobs then r.attempts
                   else r.attempts[slot.1 := if slot.1 in r.attempts then r.attempts[slot.1] + 1 else 1])
  }

  lemma Takes(r: Redis, queue: string, keys: seq<string>, until: int, claimed: seq<Job>)
    requires keys != []
    ensures (queue, keys[0]) in r.pending ==>
              Moves(r, ClaimTake(queue, keys, until, claimed), r.(pending := r.pending - {(queue, keys[0])}),
                    ClaimLease(queue, keys, until, claimed))
    ensures Moves(r, ClaimLease(queue, keys, until, claimed), r.(active := r.active[(queue, keys[0]) := until]),
                  ClaimRead(queue, keys, until, claimed))
  {
  }

  lemma Reads(r: Redis, queue: string, keys: seq<string>, until: int, claimed: seq<Job>, job: Job, attempts: nat)
    requires keys != []
    ensures keys[0] !in r.jobs ==>
              Moves(r, ClaimRead(queue, keys, until, claimed), r, NextClaim(queue, keys[1..], until, claimed))
    ensures keys[0] in r.jobs ==>
              Moves(r, ClaimRead(queue, keys, until, claimed), r, ClaimAttempts(queue, keys, until, claimed, r.jobs[keys[0]]))
    ensures Moves(r, ClaimAttempts(queue, keys, until, claimed, job), r,
                  ClaimCount(queue, keys, until, claimed, job, if keys[0] in r.attempts then r.attempts[keys[0]] + 1 else 1))
    ensures Moves(r, ClaimCount(queue, keys, until, claimed, job, attempts), r.(attempts := r.attempts[keys[0] := attempts]),
                  NextClaim(queue, keys[1..], until, claimed + [job]))
  {
    hide NextClaim;
  }

  lemma TakesAndLeases(r: Redis, queue: string, keys: seq<string>, until: int, claimed: seq<Job>)
    requires keys != [] && (queue, keys[0]) in r.pending
    ensures var slot := (queue, keys[0]);
            Play(r, ClaimTake(queue, keys, until, claimed), 2) ==
            (r.(pending := r.pending - {slot}, active := r.active[slot := until]), ClaimRead(queue, keys, until, claimed))
  {
    hide Moves, Play;
    var slot := (queue, keys[0]);
    var r1 := r.(pending := r.pending - {slot});
    Takes(r, queue, keys, until, claimed);
    Takes(r1, queue, keys, until, claimed);
    Played2(r, ClaimTake(queue, keys, until, claimed), r1, ClaimLease(queue, keys, until, claimed),
            r1.(active := r1.active[slot := until]), ClaimRead(queue, keys, until, claimed));
  }

  lemma ReadsMissing(r: Redis, queue: string, keys: seq<string>, until: int, claimed: seq<Job>)
    requires keys != [] && keys[0] !in r.jobs
    ensures Play(r, ClaimRead(queue, keys, until, claimed), 1) == (r, NextClaim(queue, keys[1..], until, claimed))
  {
    hide Moves, Play, NextClaim;
    Reads(r, queue, keys, until, claimed, Queue.Job("", "", "", 0, "", 0), 0);
    Played1(r, ClaimRead(queue, keys, until, claimed), r, NextClaim(queue, keys[1..], until, claimed));
  }

  lemma ReadsStored(r: Redis, queue: string, keys: seq<string>, until: int, claimed: seq<Job>)
    requires keys != [] && keys[0] in r.jobs
    ensures Play(r, ClaimRead(queue, keys, until, claimed), 3) ==
            (r.(attempts := r.attempts[keys[0] := if keys[0] in r.attempts then r.attempts[keys[0]] + 1 else 1]),
             NextClaim(queue, keys[1..], until, claimed + [r.jobs[keys[0]]]))
  {
    hide Moves, Play, NextClaim;
    var job := r.jobs[keys[0]];
    var n := if keys[0] in r.attempts then r.attempts[keys[0]] + 1 else 1;
    var r3 := r.(attempts := r.attempts[keys[0] := n]);
    Reads(r, queue, keys, until, claimed, job, n);
    Played2(r, ClaimRead(queue, keys, until, claimed), r, ClaimAttempts(queue, keys, until, claimed, job),
            r, ClaimCount(queue, keys, until, claimed, job, n));
    Played1(r, ClaimCount(queue, keys, until, claimed, job, n), r3, NextClaim(queue, keys[1..], until, claimed + [job]));
    PlayOn(r, ClaimRead(queue, keys, until, claimed), 2, 1);
  }

  lemma ClaimsOne(r: Redis, queue: string, keys: seq<string>, until: int, claimed: seq<Job>) returns (n: nat)
    requires keys != [] && (queue, keys[0]) in r.pending
    ensures Play(r, ClaimTake(queue, keys, until, claimed), n) ==
            (ClaimKey(r, (queue, keys[0]), until),
             NextClaim(queue, keys[1..], until, claimed + if keys[0] in r.jobs then [r.jobs[keys[0]]] else []))
  {
    hide Play, NextClaim;
    TakesAndLeases(r, queue, keys, until, claimed);
    var r2 := r.(pending := r.pending - {(queue, keys[0])}, active := r.active[(queue, keys[0]) := until]);
    if keys[0] in r.jobs {
      n := 5;
      ReadsStored(r2, queue, keys, until, claimed);
      PlayOn(r, ClaimTake(queue, keys, until, claimed), 2, 3);
    } else {
      n := 3;
      assert claimed + [] == claimed;
      ReadsMissing(r2, queue, keys, until, claimed);
      PlayOn(r, ClaimTake(queue, keys, until, claimed), 2, 1);
    }
  }

  function SlotsOf(queue: string, keys: seq<string>): set<Slot> { set k | k in keys :: (queue, k) }

  /** The stored payloads of the keys, in order. */
  function JobsOf(jobs: map<string, Job>, keys: seq<string>): seq<Job> {
    if keys == [] then [] else (if keys[0] in jobs then [jobs[keys[0]]] else []) + JobsOf(jobs, keys[1..])
  }

  predicate DistinctKeys(keys: seq<string>) { forall i, j | 0 <= i < j < |keys| :: keys[i] != keys[j] }

  /** All of the keys have left pending for a lease to that time, and those with a payload are counted once more. */
  ghost predicate ClaimedAll(r: Redis, r': Redis, queue: string, keys: seq<string>, until: int) {
    var slots := SlotsOf(queue, keys);
    && r'.pending == r.pending - slots && r'.active == r.active + (map slot | slot in slots :: until)
    && r'.dead == r.dead && r'.jobs == r.jobs
    && (forall key | key in keys && key in r.jobs ::
          key in r'.attempts && r'.attempts[key] == if key in r.attempts then r.attempts[key] + 1 else 1)
    && (forall key | !(key in keys && key in r.jobs) ::
          (key in r'.attempts <==> key in r.attempts) && (key in r.attempts ==> r'.attempts[key] == r.attempts[key]))
  }

  lemma LessAndLess<V>(m: map<Slot, V>, slot: Slot, slots: set<Slot>)
    ensures (m - {slot}) - slots == m - (slots + {slot})
  {
  }

  lemma MoreAndMore(m: map<Slot, int>, slot: Slot, slots: set<Slot>, score: int)
    ensures m[slot := score] + (map s | s in slots :: score) == m + (map s | s in slots + {slot} :: score)
  {
  }

  lemma SlotsMore(queue: string, keys: seq<string>)
    requires keys != []
    ensures SlotsOf(queue, keys) == SlotsOf(queue, keys[1..]) + {(queue, keys[0])}
    ensures forall k :: k in keys <==> k == keys[0] || k in keys[1..]
  {
    assert keys == [keys[0]] + keys[1..];
  }

  lemma DistinctTail(keys: seq<string>)
    requires keys != [] && DistinctKeys(keys)
    ensures DistinctKeys(keys[1..]) && keys[0] !in keys[1..]
  {
    assert forall i | 1 <= i < |keys| :: keys[i] != keys[0] && keys[1..][i - 1] == keys[i];
  }

  lemma ClaimedMore(r: Redis, r': Redis, queue: string, keys: seq<string>, until: int)
    requires keys != [] && DistinctKeys(keys)
    requires ClaimedAll(ClaimKey(r, (queue, keys[0]), until), r', queue, keys[1..], until)
    ensures ClaimedAll(r, r', queue, keys, until)
  {
    hide SlotsOf, DistinctKeys;
    SlotsMore(queue, keys);
    DistinctTail(keys);
    LessAndLess(r.pending, (queue, keys[0]), SlotsOf(queue, keys[1..]));
    MoreAndMore(r.active, (queue, keys[0]), SlotsOf(queue, keys[1..]), until);
  }

  lemma ClaimKeyKeeps(r: Redis, queue: string, keys: seq<string>, until: int)
    requires keys != [] && DistinctKeys(keys) && forall k | k in keys :: (queue, k) in r.pending
    ensures var r1 := ClaimKey(r, (queue, keys[0]), until);
            r1.jobs == r.jobs && forall k | k in keys[1..] :: (queue, k) in r1.pending
  {
    DistinctTail(keys);
    SlotsMore(queue, keys);
  }

  /** A claim from the answer of its scan on. */
  lemma {:induction false} ClaimsAll(r: Redis, queue: string, keys: seq<string>, until: int, claimed: seq<Job>)
    returns (n: nat, r': Redis)
    requires DistinctKeys(keys) && forall k | k in keys :: (queue, k) in r.pending
    ensures Play(r, NextClaim(queue, keys, until, claimed), n) ==
            (r', Returned(Claimed(claimed + JobsOf(r.jobs, keys))))
    ensures ClaimedAll(r, r', queue, keys, until)
    decreases |keys|
  {
    hide Play, Command, Continue, ClaimedAll, ClaimKey, DistinctKeys;
    if keys == [] {
      n, r' := 0, r;
      assert claimed + [] == claimed;
      NothingPlayed(r, Returned(Claimed(claimed)));
      NothingClaimed(r, queue, until);
    } else {
      var one := if keys[0] in r.jobs then [r.jobs[keys[0]]] else [];
      var m := ClaimsOne(r, queue, keys, until, claimed);
      var r1 := ClaimKey(r, (queue, keys[0]), until);
      ClaimKeyKeeps(r, queue, keys, until);
      DistinctTail(keys);
      var n1;
      n1, r' := ClaimsAll(r1, queue, keys[1..], until, claimed + one);
      n := m + n1;
      PlayOn(r, ClaimTake(queue, keys, until, claimed), m, n1);
      assert claimed + one + JobsOf(r.jobs, keys[1..]) == claimed + (one + JobsOf(r.jobs, keys[1..]));
      ClaimedMore(r, r', queue, keys, until);
    }
  }

  lemma NothingPlayed(r: Redis, pc: Place)
    ensures Play(r, pc, 0) == (r, pc)
  {
  }

  lemma NothingClaimed(r: Redis, queue: string, until: int)
    ensures ClaimedAll(r, r, queue, [], until)
  {
    assert SlotsOf(queue, []) == {};
    assert r.pending - {} == r.pending;
    assert r.active + map[] == r.active;
  }

  /** A whole claim leases what its scan answered, the due keys with the lowest scores, and delivers their payloads. */
  lemma ClaimAlone(r: Redis, queue: string, now: int, until: int, keys: seq<string>) returns (n: nat, r': Redis)
    requires Scanned(r.pending, queue, now, 10, keys)
    ensures var scan: Place := ClaimScan(queue, now, until);
            Play(Command(r, scan), Continue(r, scan, keys), n) == (r', Returned(Claimed(JobsOf(r.jobs, keys))))
    ensures ClaimedAll(r, r', queue, keys, until)
  {
    hide Play, ClaimedAll;
    forall k | k in keys ensures (queue, k) in r.pending { }
    n, r' := ClaimsAll(r, queue, keys, until, []);
    assert [] + JobsOf(r.jobs, keys) == JobsOf(r.jobs, keys);
  }

  // ---- Releases ----------------------------------------------------------

  /** All of the keys are back on pending, due at that time. */
  ghost predicate ReleasedAll(r: Redis, r': Redis, queue: string, keys: seq<string>, now: int) {
    var slots := SlotsOf(queue, keys);
    r' == r.(active := r.active - slots, pending := r.pending + (map slot | slot in slots :: now))
  }

  lemma ReleaseMoves(r: Redis, queues: seq<string>, keys: seq<string>, now: int, released: nat)
    requires queues != [] && keys != []
    ensures (queues[0], keys[0]) in r.active ==>
              Moves(r, ReleaseTake(queues, keys, now, released), r.(active := r.active - {(queues[0], keys[0])}),
                    ReleaseAdd(queues, keys, now, released))
    ensures Moves(r, ReleaseAdd(queues, keys, now, released), r.(pending := r.pending[(queues[0], keys[0]) := now]),
                  NextRelease(queues, keys[1..], now, released + 1))
  {
  }

  lemma ReleasesOne(r: Redis, queues: seq<string>, keys: seq<string>, now: int, released: nat)
    requires queues != [] && keys != [] && (queues[0], keys[0]) in r.active
    ensures var slot := (queues[0], keys[0]);
            Play(r, ReleaseTake(queues, keys, now, released), 2) ==
            (r.(active := r.active - {slot}, pending := r.pending[slot := now]),
             NextRelease(queues, keys[1..], now, released + 1))
  {
    hide Moves, Play, NextRelease;
    var slot := (queues[0], keys[0]);
    var r1 := r.(active := r.active - {slot});
    ReleaseMoves(r, queues, keys, now, released);
    ReleaseMoves(r1, queues, keys, now, released);
    Played2(r, ReleaseTake(queues, keys, now, released), r1, ReleaseAdd(queues, keys, now, released),
            r1.(pending := r1.pending[slot := now]), NextRelease(queues, keys[1..], now, released + 1));
  }

  lemma ReleasedMore(r: Redis, r': Redis, queue: string, keys: seq<string>, now: int)
    requires keys != []
    requires var slot := (queue, keys[0]);
             ReleasedAll(r.(active := r.active - {slot}, pending := r.pending[slot := now]), r', queue, keys[1..], now)
    ensures ReleasedAll(r, r', queue, keys, now)
  {
    hide SlotsOf;
    SlotsMore(queue, keys);
    LessAndLess(r.active, (queue, keys[0]), SlotsOf(queue, keys[1..]));
    MoreAndMore(r.pending, (queue, keys[0]), SlotsOf(queue, keys[1..]), now);
  }

  /** The keys a scan of one queue answered go back; the call turns to the next queue, or returns. */
  lemma {:induction false} ReleaseAlone(r: Redis, queues: seq<string>, keys: seq<string>, now: int, released: nat)
    returns (r': Redis)
    requires queues != [] && DistinctKeys(keys) && forall k | k in keys :: (queues[0], k) in r.active
    ensures Play(r, NextRelease(queues, keys, now, released), 2 * |keys|) ==
            (r', if |queues| > 1 then ReleaseScan(queues[1..], now, released + |keys|)
                 else Returned(ReleasedCount(released + |keys|)))
    ensures ReleasedAll(r, r', queues[0], keys, now)
    decreases |keys|
  {
    hide Play, Command, Continue, ReleasedAll;
    if keys == [] {
      r' := r;
      NothingPlayed(r, NextRelease(queues, keys, now, released));
      NothingReleased(r, queues[0], now);
    } else {
      var slot := (queues[0], keys[0]);
      ReleasesOne(r, queues, keys, now, released);
      assert forall k | k in keys[1..] :: k in keys;
      assert forall i | 1 <= i < |keys| :: keys[i] != keys[0];
      r' := ReleaseAlone(r.(active := r.active - {slot}, pending := r.pending[slot := now]), queues, keys[1..], now, released + 1);
      PlayOn(r, ReleaseTake(queues, keys, now, released), 2, 2 * (|keys| - 1));
      ReleasedMore(r, r', queues[0], keys, now);
    }
  }

  lemma NothingReleased(r: Redis, queue: string, now: int)
    ensures ReleasedAll(r, r, queue, [], now)
  {
    assert SlotsOf(queue, []) == {};
    assert r.active - {} == r.active;
    assert r.pending + map[] == r.pending;
  }

  predicate DueLease(r: Redis, slot: Slot, now: int) { slot in r.active && 0 <= r.active[slot] <= now }

  /** A lease of these queues that is over is pending and due at once; every other slot is as it was. */
  ghost predicate SweptSlot(r: Redis, r': Redis, queues: seq<string>, slot: Slot, now: int) {
    if slot.0 in queues && DueLease(r, slot, now)
    then slot !in r'.active && slot in r'.pending && r'.pending[slot] == now
    else
      && (slot in r'.active <==> slot in r.active) && (slot in r.active ==> r'.active[slot] == r.active[slot])
      && (slot in r'.pending <==> slot in r.pending) && (slot in r.pending ==> r'.pending[slot] == r.pending[slot])
  }

  /** A sweep with these answers to its scans, queue by queue. */
  function Sweep(r: Redis, queues: seq<string>, answers: seq<seq<string>>, now: int, released: nat): (Redis, Place)
    requires |queues| == |answers| > 0
    decreases |queues|
  {
    var scan: Place := ReleaseScan(queues, now, released);
    var (r1, pc1) := Play(Command(r, scan), Continue(r, scan, answers[0]), 2 * |answers[0]|);
    if |queues| == 1 then (r1, pc1) else Sweep(r1, queues[1..], answers[1..], now, released + |answers[0]|)
  }

  /** Each scan finds all the leases of its queue that are over, which are fewer than a full answer. */
  ghost predicate ScansAll(r: Redis, queues: seq<string>, answers: seq<seq<string>>, now: int)
    requires |queues| == |answers|
  {
    forall i | 0 <= i < |queues| :: |answers[i]| < 100 && Scanned(r.active, queues[i], now, 100, answers[i])
  }

  function Sum(answers: seq<seq<string>>): nat {
    if answers == [] then 0 else |answers[0]| + Sum(answers[1..])
  }

  lemma ReleasedSwept(r: Redis, r': Redis, queue: string, keys: seq<string>, now: int, slot: Slot)
    requires Scanned(r.active, queue, now, 100, keys) && |keys| < 100 && ReleasedAll(r, r', queue, keys, now)
    ensures SweptSlot(r, r', [queue], slot, now)
  {
    assert slot in SlotsOf(queue, keys) <==> slot.0 == queue && slot.1 in keys;
    if slot.0 == queue && slot.1 in keys { assert DueLease(r, slot, now); }
    assert (queue, slot.1) == slot || slot.0 != queue;
  }

  /** Releasing one queue leaves what the scans of the others find. */
  lemma OthersScanned(r: Redis, r': Redis, queue: string, keys: seq<string>, now: int, other: string, found: seq<string>)
    requires ReleasedAll(r, r', queue, keys, now) && other != queue && Scanned(r.active, other, now, 100, found)
    ensures Scanned(r'.active, other, now, 100, found)
  {
    assert forall key :: (other, key) !in SlotsOf(queue, keys);
  }

  lemma SweptOn(r: Redis, r1: Redis, r': Redis, queues: seq<string>, slot: Slot, now: int)
    requires queues != [] && queues[0] !in queues[1..]
    requires SweptSlot(r, r1, [queues[0]], slot, now) && SweptSlot(r1, r', queues[1..], slot, now)
    ensures SweptSlot(r, r', queues, slot, now)
  {
    assert queues == [queues[0]] + queues[1..];
  }

  lemma Scan(r: Redis, queues: seq<string>, now: int, released: nat, keys: seq<string>)
    requires queues != []
    ensures var scan: Place := ReleaseScan(queues, now, released);
            Command(r, scan) == r && Continue(r, scan, keys) == NextRelease(queues, keys, now, released)
  {
  }

  /** A whole sweep brings back exactly the leases of its queues that are over, and counts them. */
  lemma {:induction false} SweepAlone(r: Redis, queues: seq<string>, answers: seq<seq<string>>, now: int, released: nat)
    returns (r': Redis)
    requires |queues| == |answers| > 0 && DistinctKeys(queues) && ScansAll(r, queues, answers, now)
    ensures Sweep(r, queues, answers, now, released) == (r', Returned(ReleasedCount(released + Sum(answers))))
    ensures forall slot :: SweptSlot(r, r', queues, slot, now)
    ensures r'.jobs == r.jobs && r'.dead == r.dead && r'.attempts == r.attempts
    decreases |queues|
  {
    hide Play, Command, Continue, Scanned, SweptSlot, ReleasedAll, DistinctKeys;
    var keys := answers[0];
    ScanFinds(r, queues[0], now, keys);
    Scan(r, queues, now, released, keys);
    var r1 := ReleaseAlone(r, queues, keys, now, released);
    forall slot ensures SweptSlot(r, r1, [queues[0]], slot, now) { ReleasedSwept(r, r1, queues[0], keys, now, slot); }
    OnlySets(r, r1, queues[0], keys, now);
    DistinctTail(queues);
    if |queues| == 1 {
      r' := r1;
      assert queues == [queues[0]] && answers[1..] == [];
    } else {
      forall i | 0 <= i < |queues| - 1 ensures |answers[1..][i]| < 100 && Scanned(r1.active, queues[1..][i], now, 100, answers[1..][i]) {
        assert queues[1..][i] == queues[i + 1] && queues[i + 1] in queues[1..] && answers[1..][i] == answers[i + 1];
        OthersScanned(r, r1, queues[0], keys, now, queues[i + 1], answers[i + 1]);
      }
      r' := SweepAlone(r1, queues[1..], answers[1..], now, released + |keys|);
      forall slot ensures SweptSlot(r, r', queues, slot, now) { SweptOn(r, r1, r', queues, slot, now); }
    }
  }

  lemma ScanFinds(r: Redis, queue: string, now: int, keys: seq<string>)
    requires Scanned(r.active, queue, now, 100, keys)
    ensures DistinctKeys(keys) && forall k | k in keys :: (queue, k) in r.active
  {
  }

  lemma OnlySets(r: Redis, r': Redis, queue: string, keys: seq<string>, now: int)
    requires ReleasedAll(r, r', queue, keys, now)
    ensures r'.jobs == r.jobs && r'.dead == r.dead && r'.attempts == r.attempts
  {
  }

  /** A release call sweeps the six queues, each once. */
  lemma SweepsEveryQueue(pc: Place)
    requires Starts(pc) && pc.ReleaseScan?
    ensures DistinctKeys(pc.queues) && |pc.queues| == 6 && pc.released == 0
    ensures forall queue :: queue in pc.queues <==>
              queue in {"workflow-execution", "webhook-processing", "approval-resume", "outbox-publishing",
                        "sandbox-monitoring", "cleanup"}
  {
  }

  /** A scan for a claim answers at most ten keys, one for a release at most a hundred. */
  lemma ScanLimits(sys: Sys, id: nat, keys: seq<string>)
    requires Answers(sys, Do(id, keys))
    ensures var pc := sys.calls[id];
            && (pc.ClaimScan? ==> Scanned(sys.redis.pending, pc.queue, pc.now, 10, keys))
            && (pc.ReleaseScan? ==> Scanned(sys.redis.active, pc.queues[0], pc.now, 100, keys))
  {
    hide Scanned;
  }
}
