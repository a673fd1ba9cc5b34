/**
 * The deterministic clock of the test harness (packages/test-harness/src/clock.ts): a
 * discrete-event scheduler whose callbacks arm and clear timers while it advances.
 *
 * A callback is a name; what it does when it fires may depend on everything fired so far.
 */
module Clock {
  import opened Basics

  datatype Timer<C> = Timer(atMs: int, callback: C, cancelled: bool)

  datatype Action<C> = Arm(callback: C, delayMs: nat) | Clear(id: nat)

  /** A callback that ran: its timer, when it was due and what now() read. */
  datatype Firing<C> = Firing(id: nat, dueMs: int, nowMs: int, callback: C)

  /** What a callback does, given the firings up to and including its own. */
  type Program<!C(!new)> = (C, seq<Firing<C>>) -> seq<Action<C>>

  datatype State<C> = State(
    now: int, seqNo: nat, timers: map<nat, Timer<C>>, log: seq<Firing<C>>, cleared: set<nat>)

  // ---- The next timer to fire --------------------------------------------

  predicate Due<C>(timers: map<nat, Timer<C>>, target: int, id: nat) {
    id in timers && !timers[id].cancelled && timers[id].atMs <= target
  }

  predicate Earlier(atMs: int, id: nat, atMs': int, id': nat) {
    atMs < atMs' || (atMs == atMs' && id < id')
  }

  ghost predicate HasDue<C(!new)>(timers: map<nat, Timer<C>>, target: int) {
    exists id :: Due(timers, target, id)
  }

  ghost predicate IsFirst<C>(timers: map<nat, Timer<C>>, target: int, id: nat) {
    Due(timers, target, id) &&
    forall j | j in timers && Due(timers, target, j) && j != id ::
      Earlier(timers[id].atMs, id, timers[j].atMs, j)
  }

  lemma {:induction false} FirstExists<C(!new)>(timers: map<nat, Timer<C>>, target: int)
    requires HasDue(timers, target)
    ensures exists first :: IsFirst(timers, target, first)
    decreases |timers|
  {
    var first :| Due(timers, target, first);
    var others := timers - {first};
    if HasDue(others, target) {
      FirstExists(others, target);
      var j :| IsFirst(others, target, j);
      if Earlier(timers[j].atMs, j, timers[first].atMs, first) { first := j; }
    }
    forall j | j in timers && Due(timers, target, j) && j != first
      ensures Earlier(timers[first].atMs, first, timers[j].atMs, j)
    {
      assert j in others ==> Due(others, target, j);
    }
    assert IsFirst(timers, target, first);
  }

  ghost function First<C(!new)>(timers: map<nat, Timer<C>>, target: int): (id: nat)
    requires HasDue(timers, target)
    ensures IsFirst(timers, target, id)
  {
    FirstExists(timers, target);
    var id :| IsFirst(timers, target, id);
    id
  }

  // ---- One firing, and all of them ---------------------------------------

  function Act<C>(s: State<C>, a: Action<C>): State<C> {
    match a
    case Arm(callback, delayMs) =>
      s.(seqNo := s.seqNo + 1, timers := s.timers[s.seqNo + 1 := Timer(s.now + delayMs, callback, false)])
    case Clear(id) =>
      if id in s.timers then s.(timers := s.timers - {id}, cleared := s.cleared + {id}) else s
  }

  function ActAll<C>(s: State<C>, actions: seq<Action<C>>): State<C>
    decreases actions
  {
    if actions == [] then s else ActAll(Act(s, actions[0]), actions[1..])
  }

  function Pop<C>(s: State<C>, id: nat): State<C>
    requires id in s.timers
  {
    var t := s.timers[id];
    var now := Max(s.now, t.atMs);
    s.(now := now, timers := s.timers - {id}, log := s.log + [Firing(id, t.atMs, now, t.callback)])
  }

  ghost function Step<C(!new)>(prog: Program<C>, target: int, s: State<C>): State<C>
    requires HasDue(s.timers, target)
  {
    var id := First(s.timers, target);
    var popped := Pop(s, id);
    ActAll(popped, prog(s.timers[id].callback, popped.log))
  }

  /** At most n firings of timers due by the target. */
  ghost function Fire<C(!new)>(prog: Program<C>, target: int, s: State<C>, n: nat): State<C>
    decreases n
  {
    if n == 0 || !HasDue(s.timers, target) then s else Fire(prog, target, Step(prog, target, s), n - 1)
  }

  /** The loop of advanceBy ends, after at most n firings. */
  ghost predicate Settles<C(!new)>(prog: Program<C>, target: int, s: State<C>, n: nat) {
    !HasDue(Fire(prog, target, s, n).timers, target)
  }

  ghost function Advance<C(!new)>(prog: Program<C>, s: State<C>, deltaMs: nat, n: nat): State<C> {
    Fire(prog, s.now + deltaMs, s, n).(now := s.now + deltaMs)
  }

  // ---- What every operation keeps ----------------------------------------

  function FiredIds<C>(log: seq<Firing<C>>): set<nat> {
    set i | 0 <= i < |log| :: log[i].id
  }

  function ArmedIds(n: nat): (r: set<nat>)
    ensures forall id :: id in r <==> 1 <= id <= n
  {
    if n == 0 then {} else ArmedIds(n - 1) + {n}
  }

  /** Every timer ever armed is pending, has fired or was cleared, and only one of these. */
  ghost predicate Accounted<C>(s: State<C>) {
    && s.timers.Keys + FiredIds(s.log) + s.cleared == ArmedIds(s.seqNo)
    && s.timers.Keys !! FiredIds(s.log)
    && s.timers.Keys !! s.cleared
    && FiredIds(s.log) !! s.cleared
  }

  /** Firings are in (due time, id) order, each at its due time, and pending timers come after. */
  ghost predicate InOrder<C>(s: State<C>) {
    && (forall i, j | 0 <= i < j < |s.log| ::
          Earlier(s.log[i].dueMs, s.log[i].id, s.log[j].dueMs, s.log[j].id))
    && (forall i | 0 <= i < |s.log| :: s.log[i].dueMs == s.log[i].nowMs <= s.now)
    && (forall id | id in s.timers :: !s.timers[id].cancelled && s.now <= s.timers[id].atMs)
    && (forall i, id | 0 <= i < |s.log| && id in s.timers ::
          Earlier(s.log[i].dueMs, s.log[i].id, s.timers[id].atMs, id))
  }

  ghost predicate Inv<C>(s: State<C>) { Accounted(s) && InOrder(s) }

  lemma ActKeeps<C>(s: State<C>, a: Action<C>)
    requires Inv(s)
    ensures Inv(Act(s, a)) && Act(s, a).now == s.now && Act(s, a).log == s.log
  {
    var t := Act(s, a);
    if a.Arm? {
      assert t.timers.Keys == s.timers.Keys + {s.seqNo + 1};
      assert ArmedIds(s.seqNo + 1) == ArmedIds(s.seqNo) + {s.seqNo + 1};
      assert s.seqNo + 1 !in ArmedIds(s.seqNo);
      forall i | 0 <= i < |s.log| ensures s.log[i].id <= s.seqNo {
        assert s.log[i].id in FiredIds(s.log) && s.log[i].id in ArmedIds(s.seqNo);
      }
    } else if a.id in s.timers {
      assert t.timers.Keys == s.timers.Keys - {a.id};
    }
  }

  lemma {:induction false} ActAllKeeps<C>(s: State<C>, actions: seq<Action<C>>)
    requires Inv(s)
    ensures var t := ActAll(s, actions); Inv(t) && t.now == s.now && t.log == s.log
    decreases actions
  {
    if actions != [] {
      ActKeeps(s, actions[0]);
      ActAllKeeps(Act(s, actions[0]), actions[1..]);
    }
  }

  lemma PopKeeps<C(!new)>(s: State<C>, target: int, id: nat)
    requires Inv(s) && IsFirst(s.timers, target, id)
    ensures Inv(Pop(s, id)) && s.now <= Pop(s, id).now == s.timers[id].atMs <= target
  {
    var t := Pop(s, id);
    assert t.timers.Keys == s.timers.Keys - {id};
    assert FiredIds(t.log) == FiredIds(s.log) + {id} by {
      assert t.log[|s.log|].id == id;
      assert forall i | 0 <= i < |s.log| :: t.log[i] == s.log[i];
    }
    forall j | j in t.timers ensures Earlier(s.timers[id].atMs, id, s.timers[j].atMs, j) {
      if !Due(s.timers, target, j) { assert s.timers[j].atMs > target; }
    }
  }

  lemma StepKeeps<C(!new)>(prog: Program<C>, target: int, s: State<C>)
    requires Inv(s) && HasDue(s.timers, target)
    ensures var t := Step(prog, target, s);
            && Inv(t)
            && s.now <= t.now == s.timers[First(s.timers, target)].atMs <= target
            && |t.log| == |s.log| + 1 && t.log[..|s.log|] == s.log
  {
    var id := First(s.timers, target);
    PopKeeps(s, target, id);
    ActAllKeeps(Pop(s, id), prog(s.timers[id].callback, Pop(s, id).log));
  }

  lemma {:induction false} FireKeeps<C(!new)>(prog: Program<C>, target: int, s: State<C>, n: nat)
    requires Inv(s) && s.now <= target
    ensures var t := Fire(prog, target, s, n);
            Inv(t) && s.now <= t.now <= target && s.log <= t.log
    decreases n
  {
    hide Accounted, InOrder, Step;
    if n > 0 && HasDue(s.timers, target) {
      StepKeeps(prog, target, s);
      FireKeeps(prog, target, Step(prog, target, s), n - 1);
    }
  }

  /**
   * advanceBy keeps the order of firings and loses no timer: when it returns, every timer
   * that was pending and due has fired or was cleared.
   */
  lemma AdvanceKeeps<C(!new)>(prog: Program<C>, s: State<C>, deltaMs: nat, n: nat)
    requires Inv(s) && Settles(prog, s.now + deltaMs, s, n)
    ensures var t := Advance(prog, s, deltaMs, n);
            && Inv(t) && t.now == s.now + deltaMs && s.log <= t.log
            && (forall id | id in s.timers && s.timers[id].atMs <= t.now :: id in FiredIds(t.log) + t.cleared)
            && (forall id | id in t.timers :: t.now < t.timers[id].atMs)
  {
    hide InOrder, Step, Fire;
    var target := s.now + deltaMs;
    var settled := Fire(prog, target, s, n);
    FireKeeps(prog, target, s, n);
    FireArmed(prog, target, s, n);
    SettledKeeps(settled, target);
    forall id | id in s.timers && s.timers[id].atMs <= target ensures id in FiredIds(settled.log) + settled.cleared {
      assert id in ArmedIds(s.seqNo);
      assert id in ArmedIds(settled.seqNo);
      assert id !in settled.timers;
    }
  }

  lemma SettledKeeps<C(!new)>(s: State<C>, target: int)
    requires Inv(s) && s.now <= target && !HasDue(s.timers, target)
    ensures Inv(s.(now := target))
    ensures forall id | id in s.timers :: target < s.timers[id].atMs
  {
    forall id | id in s.timers ensures target < s.timers[id].atMs {
      assert !Due(s.timers, target, id);
    }
  }

  lemma {:induction false} ActAllArmed<C>(s: State<C>, actions: seq<Action<C>>)
    ensures var t := ActAll(s, actions);
            && s.seqNo <= t.seqNo
            && forall id | id <= s.seqNo && id in t.timers :: id in s.timers && t.timers[id] == s.timers[id]
    decreases actions
  {
    if actions != [] {
      ActAllArmed(Act(s, actions[0]), actions[1..]);
    }
  }

  /** Pending timers are never changed, only armed, fired or cleared. */
  lemma {:induction false} FireArmed<C(!new)>(prog: Program<C>, target: int, s: State<C>, n: nat)
    requires Inv(s) && s.now <= target
    ensures var t := Fire(prog, target, s, n);
            && s.seqNo <= t.seqNo
            && forall id | id <= s.seqNo && id in t.timers :: id in s.timers && t.timers[id] == s.timers[id]
    decreases n
  {
    hide Accounted, InOrder;
    if n > 0 && HasDue(s.timers, target) {
      var id := First(s.timers, target);
      ActAllArmed(Pop(s, id), prog(s.timers[id].callback, Pop(s, id).log));
      StepKeeps(prog, target, s);
      FireArmed(prog, target, Step(prog, target, s), n - 1);
    }
  }

  // ---- Timers fire when they were armed for ------------------------------

  ghost predicate FiredAs<C(!new)>(log: seq<Firing<C>>, id: nat, atMs: int, callback: C) {
    exists i | 0 <= i < |log| :: log[i] == Firing(id, atMs, atMs, callback)
  }

  /** A timer armed for that time is pending for it, was cleared, or fired then. */
  ghost predicate Fate<C(!new)>(s: State<C>, id: nat, atMs: int, callback: C) {
    || (id in s.timers && s.timers[id] == Timer(atMs, callback, false))
    || id in s.cleared || FiredAs(s.log, id, atMs, callback)
  }

  lemma {:induction false} ActAllFate<C(!new)>(s: State<C>, actions: seq<Action<C>>, id: nat, atMs: int, callback: C)
    requires Fate(s, id, atMs, callback) && id <= s.seqNo
    ensures Fate(ActAll(s, actions), id, atMs, callback)
    decreases actions
  {
    if actions != [] {
      assert Fate(Act(s, actions[0]), id, atMs, callback);
      ActAllFate(Act(s, actions[0]), actions[1..], id, atMs, callback);
    }
  }

  lemma StepFate<C(!new)>(prog: Program<C>, target: int, s: State<C>, id: nat, atMs: int, callback: C)
    requires Inv(s) && HasDue(s.timers, target) && Fate(s, id, atMs, callback) && id <= s.seqNo
    ensures Fate(Step(prog, target, s), id, atMs, callback)
  {
    hide Inv;
    var first := First(s.timers, target);
    var popped := Pop(s, first);
    PopKeeps(s, target, first);
    assert popped.log[|s.log|].id == first;
    if FiredAs(s.log, id, atMs, callback) {
      var i :| 0 <= i < |s.log| && s.log[i] == Firing(id, atMs, atMs, callback);
      assert popped.log[i] == s.log[i];
    }
    ActAllFate(popped, prog(s.timers[first].callback, popped.log), id, atMs, callback);
  }

  lemma {:induction false} FireFate<C(!new)>(prog: Program<C>, target: int, s: State<C>, n: nat, id: nat, atMs: int, callback: C)
    requires Inv(s) && s.now <= target && Fate(s, id, atMs, callback) && id <= s.seqNo
    ensures Fate(Fire(prog, target, s, n), id, atMs, callback)
    decreases n
  {
    hide Inv, Fate;
    if n > 0 && HasDue(s.timers, target) {
      StepKeeps(prog, target, s);
      StepFate(prog, target, s, id, atMs, callback);
      FireArmed(prog, target, s, 1);
      assert Fire(prog, target, s, 1) == Step(prog, target, s);
      FireFate(prog, target, Step(prog, target, s), n - 1, id, atMs, callback);
    }
  }

  /** A timer fires its callback, with now() reading the time it was armed plus its delay, unless it is cleared before. */
  lemma FiresAsArmed<C(!new)>(prog: Program<C>, s: State<C>, callback: C, delayMs: nat, deltaMs: nat, n: nat)
    requires Inv(s) && Settles(prog, s.now + deltaMs, Act(s, Arm(callback, delayMs)), n)
    ensures var id, t := s.seqNo + 1, Advance(prog, Act(s, Arm(callback, delayMs)), deltaMs, n);
            || id in t.cleared
            || (if delayMs <= deltaMs then FiredAs(t.log, id, s.now + delayMs, callback)
                else id in t.timers && t.timers[id] == Timer(s.now + delayMs, callback, false))
  {
    hide Inv, FiredAs, Fire;
    var armed, id := Act(s, Arm(callback, delayMs)), s.seqNo + 1;
    ActKeeps(s, Arm(callback, delayMs));
    FireFate(prog, s.now + deltaMs, armed, n, id, s.now + delayMs, callback);
    AdvanceKeeps(prog, armed, deltaMs, n);
    var t := Fire(prog, s.now + deltaMs, armed, n);
    FireKeeps(prog, s.now + deltaMs, armed, n);
    if id !in t.cleared && FiredAs(t.log, id, s.now + delayMs, callback) { FiredByThen(t, id, s.now + delayMs, callback); }
  }

  lemma FiredByThen<C(!new)>(t: State<C>, id: nat, atMs: int, callback: C)
    requires Inv(t) && FiredAs(t.log, id, atMs, callback)
    ensures atMs <= t.now
  {
  }

  // ---- Advancing in two parts is advancing at once -----------------------

  /** What is first by an earlier target is first by a later one. */
  lemma FirstAgrees<C(!new)>(timers: map<nat, Timer<C>>, target: int, later: int)
    requires HasDue(timers, target) && target <= later
    ensures HasDue(timers, later) && First(timers, target) == First(timers, later)
  {
    var i := First(timers, target);
    assert Due(timers, later, i);
    var j := First(timers, later);
    assert i != j ==> Earlier(timers[j].atMs, j, timers[i].atMs, i);
    assert i != j ==> Due(timers, target, j);
  }

  lemma StepAgrees<C(!new)>(prog: Program<C>, s: State<C>, target: int, later: int)
    requires HasDue(s.timers, target) && target <= later
    ensures HasDue(s.timers, later) && Step(prog, target, s) == Step(prog, later, s)
  {
    FirstAgrees(s.timers, target, later);
  }

  lemma {:induction false} FireThrough<C(!new)>(prog: Program<C>, s: State<C>, target: int, later: int, n: nat, k: nat)
    returns (m: nat)
    requires target <= later
    ensures m <= n
    ensures Fire(prog, later, s, m + k) == Fire(prog, later, Fire(prog, target, s, n), k)
    decreases n
  {
    hide Step;
    if n == 0 || !HasDue(s.timers, target) {
      m := 0;
    } else {
      StepAgrees(prog, s, target, later);
      var m' := FireThrough(prog, Step(prog, target, s), target, later, n - 1, k);
      m := m' + 1;
    }
  }

  /** Once nothing is due by a target, moving the clock there changes no later firing. */
  lemma FireFromTarget<C(!new)>(prog: Program<C>, s: State<C>, target: int, later: int, n: nat)
    requires Inv(s) && s.now <= target <= later && !HasDue(s.timers, target)
    ensures Fire(prog, later, s, n).(now := later) == Fire(prog, later, s.(now := target), n).(now := later)
  {
    if n > 0 && HasDue(s.timers, later) {
      var id := First(s.timers, later);
      assert !Due(s.timers, target, id);
      assert Pop(s, id) == Pop(s.(now := target), id);
    }
  }

  /** advanceBy(a) and then advanceBy(b) is advanceBy(a + b): if both end, so does the one. */
  lemma AdvanceSplits<C(!new)>(prog: Program<C>, s: State<C>, a: nat, b: nat, n1: nat, n2: nat) returns (n: nat)
    requires Inv(s) && Settles(prog, s.now + a, s, n1)
    requires Settles(prog, s.now + a + b, Advance(prog, s, a, n1), n2)
    ensures Settles(prog, s.now + a + b, s, n)
    ensures Advance(prog, s, a + b, n) == Advance(prog, Advance(prog, s, a, n1), b, n2)
  {
    hide Accounted, InOrder, Step, Fire;
    var target, later := s.now + a, s.now + a + b;
    var mid := Fire(prog, target, s, n1);
    var m := FireThrough(prog, s, target, later, n1, n2);
    n := m + n2;
    FireKeeps(prog, target, s, n1);
    FireFromTarget(prog, mid, target, later, n2);
    assert Fire(prog, later, s, n) == Fire(prog, later, mid, n2);
    assert Fire(prog, later, mid, n2).timers == Fire(prog, later, Advance(prog, s, a, n1), n2).timers by {
      assert Fire(prog, later, mid, n2).(now := later).timers == Fire(prog, later, mid, n2).timers;
    }
  }

  lemma {:induction false} SettlesEarlier<C(!new)>(prog: Program<C>, s: State<C>, target: int, later: int, n: nat)
    returns (n1: nat)
    requires target <= later && Settles(prog, later, s, n)
    ensures n1 <= n && Settles(prog, target, s, n1)
    ensures Fire(prog, later, s, n) == Fire(prog, later, Fire(prog, target, s, n1), n - n1)
    decreases n
  {
    hide Step;
    if !HasDue(s.timers, target) {
      n1 := 0;
    } else {
      StepAgrees(prog, s, target, later);
      assert n > 0;
      var n' := SettlesEarlier(prog, Step(prog, target, s), target, later, n - 1);
      n1 := n' + 1;
    }
  }

  /** And if the one advance ends, so do its two parts, with the same result. */
  lemma AdvanceJoins<C(!new)>(prog: Program<C>, s: State<C>, a: nat, b: nat, n: nat) returns (n1: nat, n2: nat)
    requires Inv(s) && Settles(prog, s.now + a + b, s, n)
    ensures Settles(prog, s.now + a, s, n1)
    ensures Settles(prog, s.now + a + b, Advance(prog, s, a, n1), n2)
    ensures Advance(prog, s, a + b, n) == Advance(prog, Advance(prog, s, a, n1), b, n2)
  {
    hide Accounted, InOrder, Step, Fire;
    var target, later := s.now + a, s.now + a + b;
    n1 := SettlesEarlier(prog, s, target, later, n);
    n2 := n - n1;
    var mid := Fire(prog, target, s, n1);
    FireKeeps(prog, target, s, n1);
    FireFromTarget(prog, mid, target, later, n2);
    assert Fire(prog, later, mid, n2).(now := later).timers == Fire(prog, later, mid, n2).timers;
  }

  /** The result does not depend on how many firings were allowed for. */
  lemma {:induction false} SettledOnce<C(!new)>(prog: Program<C>, target: int, s: State<C>, m: nat, n: nat)
    requires Settles(prog, target, s, m) && Settles(prog, target, s, n)
    ensures Fire(prog, target, s, m) == Fire(prog, target, s, n)
    decreases m
  {
    if HasDue(s.timers, target) {
      assert m > 0 && n > 0;
      SettledOnce(prog, target, Step(prog, target, s), m - 1, n - 1);
    }
  }

  // ---- When the loop ends ------------------------------------------------

  ghost predicate PositiveDelays<C(!new)>(prog: Program<C>) {
    forall c: C, log: seq<Firing<C>>, i: nat | i < |prog(c, log)| ::
      prog(c, log)[i].Arm? ==> prog(c, log)[i].delayMs > 0
  }

  function AtNow<C>(s: State<C>): set<nat> {
    set id | id in s.timers && s.timers[id].atMs == s.now
  }

  lemma {:induction false} ActAllAtNow<C>(s: State<C>, actions: seq<Action<C>>)
    requires Inv(s) && forall i | 0 <= i < |actions| :: actions[i].Arm? ==> actions[i].delayMs > 0
    ensures AtNow(ActAll(s, actions)) <= AtNow(s)
    decreases actions
  {
    if actions != [] {
      ActKeeps(s, actions[0]);
      assert AtNow(Act(s, actions[0])) <= AtNow(s);
      ActAllAtNow(Act(s, actions[0]), actions[1..]);
    }
  }

  /** If callbacks only arm timers with a positive delay, every advance ends. */
  lemma {:induction false} PositiveDelaysSettle<C(!new)>(prog: Program<C>, target: int, s: State<C>) returns (n: nat)
    requires Inv(s) && s.now <= target && PositiveDelays(prog)
    ensures Settles(prog, target, s, n)
    decreases target - s.now, AtNow(s)
  {
    hide Accounted, InOrder;
    if !HasDue(s.timers, target) {
      n := 0;
    } else {
      var id := First(s.timers, target);
      var popped := Pop(s, id);
      PopKeeps(s, target, id);
      StepKeeps(prog, target, s);
      ActAllAtNow(popped, prog(s.timers[id].callback, popped.log));
      if popped.now == s.now {
        assert id in AtNow(s) && id !in AtNow(popped);
        assert AtNow(popped) <= AtNow(s);
      }
      var n' := PositiveDelaysSettle(prog, target, Step(prog, target, s));
      n := n' + 1;
    }
  }

  /** A callback that re-arms itself with delay 0. */
  function Rearm<C>(c: C, log: seq<Firing<C>>): seq<Action<C>> { [Arm(c, 0)] }

  lemma ActOne<C>(s: State<C>, a: Action<C>)
    ensures ActAll(s, [a]) == Act(s, a)
  {
    assert [a][1..] == [];
  }

  /** With a zero delay the loop need not end: this one never does. */
  lemma {:induction false} ZeroDelayNeverSettles<C(!new)>(target: int, s: State<C>, n: nat)
    requires Inv(s) && HasDue(s.timers, target)
    ensures !Settles(Rearm<C>, target, s, n)
    decreases n
  {
    hide Accounted, InOrder;
    if n > 0 {
      var id := First(s.timers, target);
      var popped := Pop(s, id);
      PopKeeps(s, target, id);
      StepKeeps(Rearm<C>, target, s);
      var t := Step(Rearm<C>, target, s);
      ActOne(popped, Arm(s.timers[id].callback, 0));
      assert Due(t.timers, target, popped.seqNo + 1);
      ZeroDelayNeverSettles(target, t, n - 1);
    }
  }

  // ---- The clock object --------------------------------------------------

  lemma FireOnce<C(!new)>(prog: Program<C>, target: int, s: State<C>, n: nat)
    requires HasDue(s.timers, target) && !HasDue(Fire(prog, target, s, n).timers, target)
    ensures n > 0 && Fire(prog, target, s, n) == Fire(prog, target, Step(prog, target, s), n - 1)
  {
  }

  lemma FireNone<C(!new)>(prog: Program<C>, target: int, s: State<C>, n: nat)
    requires !HasDue(s.timers, target)
    ensures Fire(prog, target, s, n) == s
  {
  }

  class DeterministicClock<C(!new)> {
    var currentMs: int
    var seqNo: nat
    var timers: map<nat, Timer<C>>
    var log: seq<Firing<C>>
    ghost var cleared: set<nat>

    ghost function Now(): State<C>
      reads this
    {
      State(currentMs, seqNo, timers, log, cleared)
    }

    constructor (startMs: nat)
      ensures Inv(Now()) && Now() == State(startMs, 0, map[], [], {})
    {
      currentMs, seqNo, timers, log, cleared := startMs, 0, map[], [], {};
    }

    /** Throws (None) on a negative delay. */
    method SetTimeout(callback: C, delayMs: int) returns (id: Option<nat>)
      modifies this
      ensures delayMs < 0 ==> id == None && Now() == old(Now())
      ensures delayMs >= 0 ==> id == Some(old(seqNo) + 1) && Now() == Act(old(Now()), Arm(callback, delayMs))
      ensures delayMs >= 0 ==> timers == old(timers)[old(seqNo) + 1 := Timer(old(currentMs) + delayMs, callback, false)]
    {
      if delayMs < 0 { return None; }
      seqNo := seqNo + 1;
      timers := timers[seqNo := Timer(currentMs + delayMs, callback, false)];
      return Some(seqNo);
    }

    method ClearTimer(id: nat)
      modifies this
      ensures Now() == Act(old(Now()), Clear(id))
    {
      if id in timers {
        timers := timers - {id};
        cleared := cleared + {id};
      }
    }

    /** The sort by (due time, id), of which the loop takes the first. */
    method FindFirst(target: int) returns (due: Option<nat>)
      ensures due.None? ==> !HasDue(timers, target)
      ensures due.Some? ==> HasDue(timers, target) && due.value == First(timers, target)
    {
      due := None;
      var ids := timers.Keys;
      while ids != {}
        invariant ids <= timers.Keys
        invariant due.None? ==> forall j | j in timers.Keys - ids :: !Due(timers, target, j)
        invariant due.Some? ==>
          && due.value in timers.Keys - ids && Due(timers, target, due.value)
          && forall j | j in timers.Keys - ids && Due(timers, target, j) && j != due.value ::
               Earlier(timers[due.value].atMs, due.value, timers[j].atMs, j)
        decreases ids
      {
        var id :| id in ids;
        ids := ids - {id};
        var t := timers[id];
        if !t.cancelled && t.atMs <= target &&
           (due.None? || Earlier(t.atMs, id, timers[due.value].atMs, due.value))
        {
          due := Some(id);
        }
      }
      if due.Some? {
        var first := First(timers, target);
      }
    }

    method RunActions(actions: seq<Action<C>>)
      modifies this
      ensures Now() == ActAll(old(Now()), actions)
    {
      for i := 0 to |actions|
        invariant ActAll(Now(), actions[i..]) == ActAll(old(Now()), actions)
      {
        assert actions[i..][1..] == actions[i + 1..];
        match actions[i] {
          case Arm(callback, delayMs) => var _ := SetTimeout(callback, delayMs);
          case Clear(id) => ClearTimer(id);
        }
      }
    }

    method PopTimer(id: nat) returns (timer: Timer<C>)
      requires id in timers
      modifies this
      ensures timer == old(timers[id]) && Now() == Pop(old(Now()), id)
    {
      timer := timers[id];
      timers := timers - {id};
      currentMs := Max(currentMs, timer.atMs);
      log := log + [Firing(id, timer.atMs, currentMs, timer.callback)];
    }

    /** Throws (false) on a negative delta.  n bounds the firings of an advance that ends. */
    method AdvanceBy(deltaMs: int, prog: Program<C>, ghost n: nat) returns (ok: bool)
      requires deltaMs >= 0 ==> Settles(prog, currentMs + deltaMs, Now(), n)
      modifies this
      ensures ok <==> deltaMs >= 0
      ensures Now() == if deltaMs >= 0 then Advance(prog, old(Now()), deltaMs, n) else old(Now())
    {
      hide Fire, Pop, ActAll;
      if deltaMs < 0 { return false; }
      var target := currentMs + deltaMs;
      ghost var left := n;
      while true
        invariant Fire(prog, target, Now(), left) == Fire(prog, target, old(Now()), n)
        decreases left
      {
        var due := FindFirst(target);
        if due.None? { FireNone(prog, target, Now(), left); break; }
        ghost var before := Now();
        FireOnce(prog, target, before, left);
        var timer := PopTimer(due.value);
        RunActions(prog(timer.callback, log));
        assert Now() == Step(prog, target, before);
        left := left - 1;
      }
      currentMs := target;
      return true;
    }

    method AdvanceTo(atMs: int, prog: Program<C>, ghost n: nat) returns (ok: bool)
      requires atMs >= currentMs ==> Settles(prog, atMs, Now(), n)
      modifies this
      ensures ok <==> atMs >= old(currentMs)
      ensures Now() == if ok then Advance(prog, old(Now()), atMs - old(currentMs), n) else old(Now())
    {
      if atMs < currentMs { return false; }
      ok := AdvanceBy(atMs - currentMs, prog, n);
    }
  }
}
