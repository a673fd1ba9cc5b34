/**
 * Sessions and logins (packages/auth/src/service.ts, packages/auth/src/memory-store.ts):
 * any number of calls interleave between their store accesses, and writes are guarded by
 * compare-and-set on a row version. A token stands for its hash.
 */
module Sessions {
  import opened Basics

  const LOGIN_TTL_MS: int := 600_000
  const MIN_TOKEN: nat := 20

  datatype Session = Session(
    user: string, createdAt: int, lastSeen: int, idle: int, absolute: int, revoked: Option<int>, version: nat)

  datatype Txn = Txn(expires: int, consumed: Option<int>, version: nat)

  /** The lengths of the idle window and of the absolute lifetime. */
  datatype Policy = Policy(window: nat, lifetime: nat)

  predicate Dead(s: Session, now: int) { s.revoked.Some? || s.idle < now || s.absolute < now }

  /** The idle window of a record, as the service recovers it. */
  function WindowOf(s: Session): int { s.idle - s.lastSeen }

  /** More than half the window has passed (in halves, to stay among integers), and a whole one is left. */
  predicate WantsTouch(s: Session, now: int) {
    2 * (now - s.lastSeen) > WindowOf(s) && s.absolute - WindowOf(s) > now
  }

  function NewSession(p: Policy, user: string, now: int): Session {
    Session(user, now, now, now + p.window, now + p.lifetime, None, 0)
  }

  // ---- The stores --------------------------------------------------------

  datatype Cas = Done | Conflict | NotFound

  function CasOf(m: map<string, Session>, key: string, expected: nat): Cas {
    if key !in m then NotFound else if m[key].version != expected then Conflict else Done
  }

  function Touched(m: map<string, Session>, key: string, now: int, idle: int, expected: nat): map<string, Session> {
    if CasOf(m, key, expected).Done?
    then m[key := m[key].(lastSeen := now, idle := idle, version := expected + 1)] else m
  }

  function Revoked(m: map<string, Session>, key: string, at: int, expected: nat): map<string, Session> {
    if CasOf(m, key, expected).Done? then m[key := m[key].(revoked := Some(at), version := expected + 1)] else m
  }

  function ConsumeOf(m: map<string, Txn>, state: string, expected: nat): Cas {
    if state !in m then NotFound
    else if m[state].consumed.Some? || m[state].version != expected then Conflict
    else Done
  }

  function ConsumedIn(m: map<string, Txn>, state: string, at: int, expected: nat): map<string, Txn> {
    if ConsumeOf(m, state, expected).Done?
    then m[state := m[state].(consumed := Some(at), version := expected + 1)] else m
  }

  class SessionRepository {
    var sessions: map<string, Session>

    constructor ()
      ensures sessions == map[]
    {
      sessions := map[];
    }

    method Insert(key: string, s: Session) returns (ok: bool)
      modifies this
      ensures ok <==> key !in old(sessions)
      ensures sessions == if ok then old(sessions)[key := s] else old(sessions)
    {
      if key in sessions { return false; }
      sessions := sessions[key := s];
      return true;
    }

    method Touch(key: string, lastSeen: int, idle: int, expected: nat) returns (cas: Cas)
      modifies this
      ensures cas == CasOf(old(sessions), key, expected)
      ensures sessions == Touched(old(sessions), key, lastSeen, idle, expected)
    {
      if key !in sessions { return NotFound; }
      var record := sessions[key];
      if record.version != expected { return Conflict; }
      sessions := sessions[key := record.(lastSeen := lastSeen, idle := idle, version := record.version + 1)];
      return Done;
    }

    method Revoke(key: string, at: int, expected: nat) returns (cas: Cas)
      modifies this
      ensures cas == CasOf(old(sessions), key, expected)
      ensures sessions == Revoked(old(sessions), key, at, expected)
    {
      if key !in sessions { return NotFound; }
      var record := sessions[key];
      if record.version != expected { return Conflict; }
      sessions := sessions[key := record.(revoked := Some(at), version := record.version + 1)];
      return Done;
    }
  }

  class TransactionRepository {
    var transactions: map<string, Txn>

    constructor ()
      ensures transactions == map[]
    {
      transactions := map[];
    }

    method Insert(state: string, t: Txn) returns (ok: bool)
      modifies this
      ensures ok <==> state !in old(transactions)
      ensures transactions == if ok then old(transactions)[state := t] else old(transactions)
    {
      if state in transactions { return false; }
      transactions := transactions[state := t];
      return true;
    }

    method Consume(state: string, at: int, expected: nat) returns (cas: Cas)
      modifies this
      ensures cas == ConsumeOf(old(transactions), state, expected)
      ensures transactions == ConsumedIn(old(transactions), state, at, expected)
    {
      if state !in transactions { return NotFound; }
      var record := transactions[state];
      if record.consumed.Some? || record.version != expected { return Conflict; }
      transactions := transactions[state := record.(consumed := Some(at), version := record.version + 1)];
      return Done;
    }
  }

  // ---- Calls as programs of store accesses -------------------------------

  /**
   * Where a call stands. Positions in the run are kept for the statements below: began is
   * when the call started, found when it read its record, since what the clock said then.
   */
  datatype Call =
    | ResolveFind(token: string, began: nat)
    | ResolveCheck(token: string, record: Session, began: nat, found: nat, since: int)
    | ResolveTouch(token: string, record: Session, now: int, began: nat, found: nat, since: int)
    | ResolveReread(token: string, record: Session, now: int, began: nat, found: nat, since: int)
    | RevokeFind(token: string)
    | RevokeWrite(token: string, record: Session)
    | LoginFind(state: string, now: int)
    | LoginConsume(state: string, txn: Txn, now: int)
    | LoginExchange(state: string, now: int)
    | Ended(outcome: Outcome)

  datatype Outcome =
    | NoPrincipal
    | Principal(token: string, user: string, now: int, began: nat, found: nat, last: nat)
    | Unauthenticated
    | RevokedNow
    | AlreadyRevoked
    | LostRace
    | Replayed
    | ProviderFailed
    | LoggedIn(state: string, token: string)

  datatype Sys = Sys(
    policy: Policy, clock: int, sessions: map<string, Session>, txns: map<string, Txn>,
    calls: map<nat, Call>, steps: nat)

  /** user and token feed a login: the identity the provider gives, if any, and a fresh token. */
  datatype Step =
    | Tick(to: int)
    | StartLogin(state: string)
    | Resolve(id: nat, token: string)
    | Revoke(id: nat, token: string)
    | Login(id: nat, state: string)
    | Do(id: nat, user: Option<string>, token: string)
    | Crash(id: nat)

  function Begin(sys: Sys, id: nat, call: Call): Sys {
    if id in sys.calls then sys else sys.(calls := sys.calls[id := call])
  }

  function At(sys: Sys, id: nat, call: Call): Sys { sys.(calls := sys.calls[id := call]) }

  function Next(sys: Sys, step: Step): Sys {
    (match step
     case Tick(to) => if to > sys.clock then sys.(clock := to) else sys
     case StartLogin(state) =>
       if state in sys.txns then sys
       else sys.(txns := sys.txns[state := Txn(sys.clock + LOGIN_TTL_MS, None, 0)])
     case Resolve(id, token) => Begin(sys, id, ResolveFind(token, sys.steps))
     case Revoke(id, token) => Begin(sys, id, RevokeFind(token))
     case Login(id, state) => Begin(sys, id, LoginFind(state, sys.clock))
     case Crash(id) => sys.(calls := sys.calls - {id})
     case Do(id, user, token) => if id in sys.calls then Advance(sys, id, user, token) else sys
    ).(steps := sys.steps + 1)
  }

  function Advance(sys: Sys, id: nat, user: Option<string>, minted: string): Sys
    requires id in sys.calls
  {
    match sys.calls[id]
    case ResolveFind(token, began) =>
      At(sys, id, if |token| < MIN_TOKEN || token !in sys.sessions then Ended(NoPrincipal)
                  else ResolveCheck(token, sys.sessions[token], began, sys.steps, sys.clock))
    case ResolveCheck(token, record, began, found, since) =>
      var now := sys.clock;
      At(sys, id, if Dead(record, now) then Ended(NoPrincipal)
                  else if WantsTouch(record, now) then ResolveTouch(token, record, now, began, found, since)
                  else Ended(Principal(token, record.user, now, began, found, found)))
    case ResolveTouch(token, record, now, began, found, since) =>
      var cas := CasOf(sys.sessions, token, record.version);
      At(sys.(sessions := Touched(sys.sessions, token, now, now + WindowOf(record), record.version)), id,
         match cas
         case Done => Ended(Principal(token, record.user, now, began, found, sys.steps + 1))
         case Conflict => ResolveReread(token, record, now, began, found, since)
         case NotFound => Ended(Principal(token, record.user, now, began, found, found)))
    case ResolveReread(token, record, now, began, found, since) =>
      At(sys, id, if token !in sys.sessions || Dead(sys.sessions[token], now) then Ended(NoPrincipal)
                  else Ended(Principal(token, record.user, now, began, found, sys.steps)))
    case RevokeFind(token) =>
      At(sys, id, if token !in sys.sessions then Ended(Unauthenticated)
                  else if sys.sessions[token].revoked.Some? then Ended(AlreadyRevoked)
                  else RevokeWrite(token, sys.sessions[token]))
    case RevokeWrite(token, record) =>
      At(sys.(sessions := Revoked(sys.sessions, token, sys.clock, record.version)), id,
         Ended(if CasOf(sys.sessions, token, record.version).Done? then RevokedNow else LostRace))
    case LoginFind(state, now) =>
      At(sys, id, if state !in sys.txns || sys.txns[state].expires < now then Ended(Unauthenticated)
                  else if sys.txns[state].consumed.Some? then Ended(Replayed)
                  else LoginConsume(state, sys.txns[state], now))
    case LoginConsume(state, txn, now) =>
      At(sys.(txns := ConsumedIn(sys.txns, state, now, txn.version)), id,
         if ConsumeOf(sys.txns, state, txn.version).Done? then LoginExchange(state, now) else Ended(Replayed))
    case LoginExchange(state, now) =>
      if user.None? || minted in sys.sessions then At(sys, id, Ended(ProviderFailed))
      else At(sys.(sessions := sys.sessions[minted := NewSession(sys.policy, user.value, now)]), id,
              Ended(LoggedIn(state, minted)))
    case Ended(_) => sys
  }

  function Start(p: Policy, clock: int): Sys { Sys(p, clock, map[], map[], map[], 0) }

  function AfterRun(p: Policy, clock: int, run: seq<Step>): Sys {
    if run == [] then Start(p, clock) else Next(AfterRun(p, clock, run[..|run| - 1]), run[|run| - 1])
  }

  // ---- What every run keeps ----------------------------------------------

  /** The window never changes, nor does the lifetime; a touch leaves a whole window before the end. */
  predicate SessionOk(sys: Sys, s: Session) {
    && WindowOf(s) == sys.policy.window && s.absolute == s.createdAt + sys.policy.lifetime
    && s.createdAt <= s.lastSeen <= sys.clock
    && (s.lastSeen == s.createdAt || s.lastSeen + sys.policy.window < s.absolute)
  }

  /** A record read earlier: older than the stored one, or the same. */
  predicate Faithful(sys: Sys, token: string, record: Session) {
    && token in sys.sessions && SessionOk(sys, record)
    && record.version <= sys.sessions[token].version
    && (record.version == sys.sessions[token].version ==> record == sys.sessions[token])
    && sys.sessions[token].user == record.user && sys.sessions[token].absolute == record.absolute
  }

  predicate CallOk(sys: Sys, call: Call) {
    match call
    case ResolveCheck(token, record, _, _, _) => Faithful(sys, token, record)
    case ResolveTouch(token, record, now, _, _, _) =>
      Faithful(sys, token, record) && now <= sys.clock && !Dead(record, now) && WantsTouch(record, now)
    case ResolveReread(token, record, now, _, _, _) =>
      Faithful(sys, token, record) && now <= sys.clock && !Dead(record, now)
    case RevokeWrite(token, record) => Faithful(sys, token, record) && record.revoked.None?
    case LoginFind(_, now) => now <= sys.clock
    case LoginConsume(_, _, now) => now <= sys.clock
    case LoginExchange(_, now) => now <= sys.clock
    case _ => true
  }

  ghost predicate Inv(sys: Sys) {
    && (forall k | k in sys.sessions :: SessionOk(sys, sys.sessions[k]))
    && (forall id | id in sys.calls :: CallOk(sys, sys.calls[id]))
  }

  /** How a stored session may change from one state to a later one. */
  predicate Evolves(s: Session, t: Session) {
    && t.user == s.user && t.createdAt == s.createdAt && t.absolute == s.absolute && WindowOf(t) == WindowOf(s)
    && s.version <= t.version && (s.version == t.version ==> s == t)
    && (s.revoked.Some? ==> t.revoked == s.revoked)
    && (t.lastSeen != s.lastSeen ==>
          2 * (t.lastSeen - s.lastSeen) > WindowOf(s) && t.lastSeen + WindowOf(s) < s.absolute)
  }

  ghost predicate Progress(sys: Sys, sys': Sys) {
    && sys'.policy == sys.policy && sys'.clock >= sys.clock
    && forall k | k in sys.sessions :: k in sys'.sessions && Evolves(sys.sessions[k], sys'.sessions[k])
  }

  lemma CallStays(sys: Sys, sys': Sys, call: Call)
    requires Progress(sys, sys') && CallOk(sys, call)
    ensures CallOk(sys', call)
  {
  }

  /** A step keeps the invariant if stored sessions evolve and are sound, and so is the call it moved. */
  lemma InvKept(sys: Sys, sys': Sys, id: nat)
    requires Inv(sys) && Progress(sys, sys')
    requires forall k | k in sys'.sessions :: SessionOk(sys', sys'.sessions[k])
    requires forall i | i in sys'.calls && i != id :: i in sys.calls && sys'.calls[i] == sys.calls[i]
    requires id in sys'.calls ==> CallOk(sys', sys'.calls[id])
    ensures Inv(sys')
  {
    hide CallOk, SessionOk, Progress;
    forall i | i in sys'.calls ensures CallOk(sys', sys'.calls[i]) {
      if i != id { CallStays(sys, sys', sys.calls[i]); }
    }
  }

  lemma StepKeeps(sys: Sys, step: Step)
    requires Inv(sys)
    ensures Inv(Next(sys, step)) && Progress(sys, Next(sys, step))
  {
    hide CallOk, Advance;
    var sys' := Next(sys, step);
    match step
    case Tick(_) => Unmoved(sys, sys', 0);
    case StartLogin(_) => Unmoved(sys, sys', 0);
    case Resolve(id, token) => BeginOk(sys', ResolveFind(token, sys.steps)); Unmoved(sys, sys', id);
    case Revoke(id, token) => BeginOk(sys', RevokeFind(token)); Unmoved(sys, sys', id);
    case Login(id, state) => BeginOk(sys', LoginFind(state, sys.clock)); Unmoved(sys, sys', id);
    case Crash(id) => Unmoved(sys, sys', id);
    case Do(id, user, token) =>
      if id in sys.calls { AdvanceKeeps(sys, id, user, token); } else { Unmoved(sys, sys', id); }
  }

  lemma BeginOk(sys: Sys, call: Call)
    requires call.ResolveFind? || call.RevokeFind? || (call.LoginFind? && call.now <= sys.clock)
    ensures CallOk(sys, call)
  {
  }

  /** Steps that touch no session. */
  lemma Unmoved(sys: Sys, sys': Sys, id: nat)
    requires Inv(sys) && sys'.policy == sys.policy && sys'.clock >= sys.clock && sys'.sessions == sys.sessions
    requires forall i | i in sys'.calls && i != id :: i in sys.calls && sys'.calls[i] == sys.calls[i]
    requires id in sys'.calls && !(id in sys.calls && sys'.calls[id] == sys.calls[id]) ==> CallOk(sys', sys'.calls[id])
    ensures Inv(sys') && Progress(sys, sys')
  {
    hide CallOk;
    if id in sys'.calls && id in sys.calls && sys'.calls[id] == sys.calls[id] {
      CallStays(sys, sys', sys.calls[id]);
    }
    InvKept(sys, sys', id);
  }

  lemma AdvanceKeeps(sys: Sys, id: nat, user: Option<string>, token: string)
    requires Inv(sys) && id in sys.calls
    ensures var sys' := Advance(sys, id, user, token).(steps := sys.steps + 1); Inv(sys') && Progress(sys, sys')
  {
    hide Advance, CallOk, SessionOk, Dead, WantsTouch;
    var sys' := Advance(sys, id, user, token).(steps := sys.steps + 1);
    var call := sys.calls[id];
    if call.ResolveTouch? {
      TouchKeeps(sys, sys', id, user, token);
    } else if call.RevokeWrite? {
      RevokeKeeps(sys, sys', id, user, token);
    } else if call.LoginExchange? {
      LoginKeeps(sys, sys', id, user, token);
    } else {
      ReadKeeps(sys, sys', id, user, token);
    }
  }

  lemma ReadKeeps(sys: Sys, sys': Sys, id: nat, user: Option<string>, token: string)
    requires Inv(sys) && id in sys.calls && sys' == Advance(sys, id, user, token).(steps := sys.steps + 1)
    requires !sys.calls[id].ResolveTouch? && !sys.calls[id].RevokeWrite? && !sys.calls[id].LoginExchange?
    ensures Inv(sys') && Progress(sys, sys')
  {
    hide CallOk, Advance, SessionOk;
    ReadOk(sys, id, user, token);
    Unmoved(sys, sys', id);
  }

  ghost predicate ReadsOnly(sys: Sys, sys': Sys, id: nat) {
    && id in sys'.calls && sys'.sessions == sys.sessions && sys'.clock == sys.clock && sys'.policy == sys.policy
    && sys'.calls == sys.calls[id := sys'.calls[id]] && CallOk(sys'.(steps := sys.steps + 1), sys'.calls[id])
  }

  lemma ReadOk(sys: Sys, id: nat, user: Option<string>, token: string)
    requires Inv(sys) && id in sys.calls
    requires !sys.calls[id].ResolveTouch? && !sys.calls[id].RevokeWrite? && !sys.calls[id].LoginExchange?
    ensures ReadsOnly(sys, Advance(sys, id, user, token), id)
  {
    hide Advance, SessionOk, CallOk, ReadsOnly;
    var call := sys.calls[id];
    assert CallOk(sys, call);
    if call.ResolveFind? || call.RevokeFind? {
      FindOk(sys, id, user, token);
    } else {
      CheckOk(sys, id, user, token);
    }
  }

  lemma FindOk(sys: Sys, id: nat, user: Option<string>, token: string)
    requires id in sys.calls && (sys.calls[id].ResolveFind? || sys.calls[id].RevokeFind?)
    requires forall k | k in sys.sessions :: SessionOk(sys, sys.sessions[k])
    ensures ReadsOnly(sys, Advance(sys, id, user, token), id)
  {
  }

  lemma CheckOk(sys: Sys, id: nat, user: Option<string>, token: string)
    requires id in sys.calls && CallOk(sys, sys.calls[id])
    requires !sys.calls[id].ResolveFind? && !sys.calls[id].RevokeFind?
    requires !sys.calls[id].ResolveTouch? && !sys.calls[id].RevokeWrite? && !sys.calls[id].LoginExchange?
    ensures ReadsOnly(sys, Advance(sys, id, user, token), id)
  {
    hide Dead, WantsTouch, ConsumedIn, ConsumeOf;
    assert sys.calls[id := sys.calls[id]] == sys.calls;
  }

  /** A write that wins leaves a record that evolved, at the row version after the one it read. */
  lemma TouchKeeps(sys: Sys, sys': Sys, id: nat, user: Option<string>, token: string)
    requires Inv(sys) && id in sys.calls && sys' == Advance(sys, id, user, token).(steps := sys.steps + 1)
    requires sys.calls[id].ResolveTouch?
    ensures Inv(sys') && Progress(sys, sys')
  {
    var call := sys.calls[id];
    assert CallOk(sys, call);
    if CasOf(sys.sessions, call.token, call.record.version).Done? {
      InvKept(sys, sys', id);
    } else {
      assert sys'.sessions == sys.sessions;
      assert CallOk(sys', sys'.calls[id]);
      Unmoved(sys, sys', id);
    }
  }

  lemma RevokeKeeps(sys: Sys, sys': Sys, id: nat, user: Option<string>, token: string)
    requires Inv(sys) && id in sys.calls && sys' == Advance(sys, id, user, token).(steps := sys.steps + 1)
    requires sys.calls[id].RevokeWrite?
    ensures Inv(sys') && Progress(sys, sys')
  {
    hide Dead, WantsTouch;
    var call := sys.calls[id];
    assert CallOk(sys, call);
    if CasOf(sys.sessions, call.token, call.record.version).Done? {
      InvKept(sys, sys', id);
    } else {
      Unmoved(sys, sys', id);
    }
  }

  lemma LoginKeeps(sys: Sys, sys': Sys, id: nat, user: Option<string>, token: string)
    requires Inv(sys) && id in sys.calls && sys' == Advance(sys, id, user, token).(steps := sys.steps + 1)
    requires sys.calls[id].LoginExchange?
    ensures Inv(sys') && Progress(sys, sys')
  {
    assert CallOk(sys, sys.calls[id]);
    InvKept(sys, sys', id);
  }

  lemma {:induction false} AlwaysInv(p: Policy, clock: int, run: seq<Step>)
    ensures Inv(AfterRun(p, clock, run)) && AfterRun(p, clock, run).steps == |run|
    ensures AfterRun(p, clock, run).policy == p
  {
    hide Inv, Progress, Advance;
    if run == [] {
      StartInv(p, clock);
    } else {
      AlwaysInv(p, clock, run[..|run| - 1]);
      StepKeeps(AfterRun(p, clock, run[..|run| - 1]), run[|run| - 1]);
      StepCounts(AfterRun(p, clock, run[..|run| - 1]), run[|run| - 1]);
    }
  }

  lemma StartInv(p: Policy, clock: int)
    ensures Inv(Start(p, clock))
  {
  }

  lemma StepCounts(sys: Sys, step: Step)
    ensures Next(sys, step).steps == sys.steps + 1 && Next(sys, step).policy == sys.policy
  {
  }

  // ---- Main results ------------------------------------------------------

  lemma EvolvesFurther(s: Session, t: Session, u: Session)
    requires Evolves(s, t) && Evolves(t, u) && (t.lastSeen == s.lastSeen || WindowOf(s) >= 0)
    ensures Evolves(s, u)
  {
  }

  /** Whatever happens, a session is never lost, and keeps its owner, its window, its end and its revocation. */
  lemma {:induction false} SessionsLast(p: Policy, clock: int, run: seq<Step>, more: seq<Step>, key: string)
    requires key in AfterRun(p, clock, run).sessions
    ensures key in AfterRun(p, clock, run + more).sessions
    ensures Evolves(AfterRun(p, clock, run).sessions[key], AfterRun(p, clock, run + more).sessions[key])
    decreases |more|
  {
    hide Evolves, Next, Inv;
    if more == [] {
      assert run + more == run;
      EvolvesSelf(AfterRun(p, clock, run).sessions[key]);
    } else {
      var front, step := more[..|more| - 1], more[|more| - 1];
      var whole := run + more;
      assert whole[..|whole| - 1] == run + front && whole[|whole| - 1] == step;
      SessionsLast(p, clock, run, front, key);
      AlwaysInv(p, clock, run);
      AlwaysInv(p, clock, run + front);
      StepKeeps(AfterRun(p, clock, run + front), step);
      WindowIs(AfterRun(p, clock, run), key);
      EvolvesFurther(AfterRun(p, clock, run).sessions[key], AfterRun(p, clock, run + front).sessions[key],
                     AfterRun(p, clock, whole).sessions[key]);
    }
  }

  lemma EvolvesSelf(s: Session)
    ensures Evolves(s, s)
  {
  }

  lemma WindowIs(sys: Sys, key: string)
    requires Inv(sys) && key in sys.sessions
    ensures WindowOf(sys.sessions[key]) == sys.policy.window
  {
  }

  /** In every run: the window stays constant, touches lie more than half a window apart, revoked stays revoked. */
  lemma SlidingIsBounded(p: Policy, clock: int, run: seq<Step>, more: seq<Step>, key: string)
    requires key in AfterRun(p, clock, run).sessions
    ensures key in AfterRun(p, clock, run + more).sessions
    ensures var s, t := AfterRun(p, clock, run).sessions[key], AfterRun(p, clock, run + more).sessions[key];
            && s.idle - s.lastSeen == t.idle - t.lastSeen == p.window
            && t.absolute == s.absolute == s.createdAt + p.lifetime
            && (t.lastSeen == s.lastSeen || 2 * (t.lastSeen - s.lastSeen) > p.window)
            && (t.lastSeen == t.createdAt || t.idle < t.absolute)
            && (s.revoked.Some? ==> t.revoked == s.revoked)
  {
    hide Inv, Next;
    SessionsLast(p, clock, run, more, key);
    AlwaysInv(p, clock, run);
    AlwaysInv(p, clock, run + more);
    SessionsOk(AfterRun(p, clock, run), key);
    SessionsOk(AfterRun(p, clock, run + more), key);
  }

  lemma SessionsOk(sys: Sys, key: string)
    requires Inv(sys) && key in sys.sessions
    ensures SessionOk(sys, sys.sessions[key])
  {
  }

  // ---- Principals --------------------------------------------------------

  /** The stored session was good for a request of that time. */
  predicate GoodAt(sys: Sys, token: string, user: string, now: int) {
    && token in sys.sessions && sys.sessions[token].user == user
    && sys.sessions[token].revoked.None? && now <= sys.sessions[token].idle && now <= sys.sessions[token].absolute
  }

  /** The call read this record at the place it says. */
  ghost predicate ReadAt(p: Policy, clock: int, run: seq<Step>, token: string, record: Session, began: nat, found: nat) {
    && began <= found <= |run|
    && var sys := AfterRun(p, clock, run[..found]);
       token in sys.sessions && sys.sessions[token] == record && sys.clock <= AfterRun(p, clock, run).clock
  }

  ghost predicate Backed(p: Policy, clock: int, run: seq<Step>, call: Call) {
    match call
    case ResolveFind(_, began) => began <= |run|
    case ResolveCheck(token, record, began, found, since) => ReadAt(p, clock, run, token, record, began, found)
    case ResolveTouch(token, record, now, began, found, since) =>
      ReadAt(p, clock, run, token, record, began, found) && AfterRun(p, clock, run[..found]).clock <= now
    case ResolveReread(token, record, now, began, found, since) =>
      ReadAt(p, clock, run, token, record, began, found) && AfterRun(p, clock, run[..found]).clock <= now
      && !Dead(record, now)
    case Ended(Principal(token, user, now, began, found, last)) =>
      && began <= found <= last <= |run|
      && AfterRun(p, clock, run[..found]).clock <= now
      && GoodAt(AfterRun(p, clock, run[..found]), token, user, now)
      && GoodAt(AfterRun(p, clock, run[..last]), token, user, now)
    case _ => true
  }

  lemma Earlier(run: seq<Step>, step: Step, n: nat)
    requires n <= |run|
    ensures (run + [step])[..n] == run[..n]
  {
  }

  lemma BackedStays(p: Policy, clock: int, run: seq<Step>, step: Step, call: Call)
    requires Backed(p, clock, run, call)
    requires AfterRun(p, clock, run + [step]).clock >= AfterRun(p, clock, run).clock
    ensures Backed(p, clock, run + [step], call)
  {
    hide AfterRun, Dead;
    match call
    case ResolveCheck(_, _, _, found, _) => Earlier(run, step, found);
    case ResolveTouch(_, _, _, _, found, _) => Earlier(run, step, found);
    case ResolveReread(_, _, _, _, found, _) => Earlier(run, step, found);
    case Ended(Principal(_, _, _, _, found, last)) =>
      Earlier(run, step, found);
      Earlier(run, step, last);
    case _ =>
  }

  lemma RunOn(p: Policy, clock: int, run: seq<Step>, step: Step)
    ensures AfterRun(p, clock, run + [step]) == Next(AfterRun(p, clock, run), step)
    ensures run[..|run|] == run && (run + [step])[..|run| + 1] == run + [step]
  {
    assert (run + [step])[..|run|] == run;
  }

  lemma AdvanceBacked(p: Policy, clock: int, run: seq<Step>, id: nat, user: Option<string>, token: string)
    requires var sys := AfterRun(p, clock, run);
             Inv(sys) && sys.steps == |run| && id in sys.calls && Backed(p, clock, run, sys.calls[id])
    ensures var run' := run + [Do(id, user, token)];
            Backed(p, clock, run', AfterRun(p, clock, run').calls[id])
  {
    hide AfterRun, Advance, Backed, CallOk;
    var step, sys := Do(id, user, token), AfterRun(p, clock, run);
    RunOn(p, clock, run, step);
    ClockRises(sys, step);
    BackedStays(p, clock, run, step, sys.calls[id]);
    assert CallOk(sys, sys.calls[id]);
    if sys.calls[id].ResolveTouch? {
      TouchBacked(p, clock, run, id, user, token);
    } else {
      ReadBacked(p, clock, run, id, user, token);
    }
  }

  lemma TouchBacked(p: Policy, clock: int, run: seq<Step>, id: nat, user: Option<string>, token: string)
    requires AfterRun(p, clock, run).steps == |run| && id in AfterRun(p, clock, run).calls
    requires var sys := AfterRun(p, clock, run);
             sys.calls[id].ResolveTouch? && Backed(p, clock, run, sys.calls[id]) && CallOk(sys, sys.calls[id])
    requires var step := Do(id, user, token);
             Backed(p, clock, run + [step], AfterRun(p, clock, run).calls[id])
    ensures var run' := run + [Do(id, user, token)];
            Backed(p, clock, run', AfterRun(p, clock, run').calls[id])
  {
    hide AfterRun;
    var step, sys := Do(id, user, token), AfterRun(p, clock, run);
    RunOn(p, clock, run, step);
    Earlier(run, step, sys.calls[id].found);
    assert GoodAt(AfterRun(p, clock, run[..sys.calls[id].found]), sys.calls[id].token, sys.calls[id].record.user, sys.calls[id].now);
  }

  lemma ReadBacked(p: Policy, clock: int, run: seq<Step>, id: nat, user: Option<string>, token: string)
    requires AfterRun(p, clock, run).steps == |run| && id in AfterRun(p, clock, run).calls
    requires var sys := AfterRun(p, clock, run);
             !sys.calls[id].ResolveTouch? && Backed(p, clock, run, sys.calls[id]) && CallOk(sys, sys.calls[id])
    requires var step := Do(id, user, token);
             Backed(p, clock, run + [step], AfterRun(p, clock, run).calls[id])
    ensures var run' := run + [Do(id, user, token)];
            Backed(p, clock, run', AfterRun(p, clock, run').calls[id])
  {
    hide AfterRun, WantsTouch, Touched, Revoked, ConsumedIn, ConsumeOf, CasOf, NewSession, SessionOk;
    var step, sys := Do(id, user, token), AfterRun(p, clock, run);
    RunOn(p, clock, run, step);
    Earlier(run, step, |run|);
    var call := sys.calls[id];
    if call.ResolveCheck? || call.ResolveReread? { Earlier(run, step, call.found); }
  }

  lemma {:induction false} AlwaysBacked(p: Policy, clock: int, run: seq<Step>, id: nat)
    requires id in AfterRun(p, clock, run).calls
    ensures Backed(p, clock, run, AfterRun(p, clock, run).calls[id])
  {
    hide Backed, Inv, Progress, Advance;
    if run != [] {
      var before, step := run[..|run| - 1], run[|run| - 1];
      var sys, sys' := AfterRun(p, clock, before), AfterRun(p, clock, run);
      assert before + [step] == run;
      AlwaysInv(p, clock, before);
      StepKeeps(sys, step);
      ClockRises(sys, step);
      if id in sys.calls {
        AlwaysBacked(p, clock, before, id);
        if step.Do? && step.id == id {
          AdvanceBacked(p, clock, before, id, step.user, step.token);
        } else {
          SameCall(sys, step, id);
          BackedStays(p, clock, before, step, sys.calls[id]);
        }
      } else {
        NewCall(p, clock, before, step, id);
      }
    }
  }

  lemma ClockRises(sys: Sys, step: Step)
    ensures Next(sys, step).clock >= sys.clock
  {
  }

  lemma SameCall(sys: Sys, step: Step, id: nat)
    requires id in sys.calls && id in Next(sys, step).calls && !(step.Do? && step.id == id)
    ensures Next(sys, step).calls[id] == sys.calls[id]
  {
  }

  lemma NewCall(p: Policy, clock: int, run: seq<Step>, step: Step, id: nat)
    requires var sys := AfterRun(p, clock, run);
             sys.steps == |run| && id !in sys.calls && id in Next(sys, step).calls
    ensures Backed(p, clock, run + [step], Next(AfterRun(p, clock, run), step).calls[id])
  {
    hide AfterRun;
  }

  /**
   * A principal is returned only if, when the call read its record and again at its last
   * store access, the stored session was that user's, unrevoked and unexpired; the clock
   * had not passed its ends when the record was read, nor its absolute end when it was checked.
   */
  lemma PrincipalBacked(p: Policy, clock: int, run: seq<Step>, id: nat)
    requires id in AfterRun(p, clock, run).calls
    requires var call := AfterRun(p, clock, run).calls[id]; call.Ended? && call.outcome.Principal?
    ensures var r := AfterRun(p, clock, run).calls[id].outcome; r.began <= r.found <= r.last <= |run|
    ensures var r := AfterRun(p, clock, run).calls[id].outcome;
            var found, last := AfterRun(p, clock, run[..r.found]), AfterRun(p, clock, run[..r.last]);
            && GoodAt(found, r.token, r.user, found.clock) && GoodAt(found, r.token, r.user, r.now)
            && GoodAt(last, r.token, r.user, r.now)
            && r.now <= found.sessions[r.token].createdAt + p.lifetime
  {
    hide AfterRun, Inv;
    AlwaysBacked(p, clock, run, id);
    var r := AfterRun(p, clock, run).calls[id].outcome;
    AlwaysInv(p, clock, run[..r.found]);
    SessionsOk(AfterRun(p, clock, run[..r.found]), r.token);
  }

  /** Once a session is revoked, no call begun after that returns its user. */
  lemma RevokedNeverServed(p: Policy, clock: int, run: seq<Step>, more: seq<Step>, token: string, id: nat)
    requires token in AfterRun(p, clock, run).sessions && AfterRun(p, clock, run).sessions[token].revoked.Some?
    requires id in AfterRun(p, clock, run + more).calls
    ensures var call := AfterRun(p, clock, run + more).calls[id];
            call.Ended? && call.outcome.Principal? && call.outcome.token == token ==> call.outcome.began < |run|
  {
    hide AfterRun, Inv;
    var call := AfterRun(p, clock, run + more).calls[id];
    if call.Ended? && call.outcome.Principal? && call.outcome.token == token && call.outcome.found >= |run| {
      PrincipalBacked(p, clock, run + more, id);
      var found := call.outcome.found;
      assert (run + more)[..found] == run + more[..found - |run|];
      SessionsLast(p, clock, run, more[..found - |run|], token);
      assert false;
    }
    if call.Ended? && call.outcome.Principal? { PrincipalBacked(p, clock, run + more, id); }
  }

  // ---- Logins ------------------------------------------------------------

  function One(b: bool): nat { if b then 1 else 0 }

  predicate Consumes(sys: Sys, step: Step, state: string) {
    && step.Do? && step.id in sys.calls && sys.calls[step.id].LoginConsume? && sys.calls[step.id].state == state
    && ConsumeOf(sys.txns, state, sys.calls[step.id].txn.version).Done?
  }

  predicate MakesSession(sys: Sys, step: Step, state: string) {
    && step.Do? && step.id in sys.calls && sys.calls[step.id].LoginExchange? && sys.calls[step.id].state == state
    && step.user.Some? && step.token !in sys.sessions
  }

  /** How often the state was consumed, and how often a session was made for it. */
  function Consumptions(p: Policy, clock: int, run: seq<Step>, state: string): nat {
    if run == [] then 0
    else
      var before := run[..|run| - 1];
      Consumptions(p, clock, before, state) + One(Consumes(AfterRun(p, clock, before), run[|run| - 1], state))
  }

  function LoginsMade(p: Policy, clock: int, run: seq<Step>, state: string): nat {
    if run == [] then 0
    else
      var before := run[..|run| - 1];
      LoginsMade(p, clock, before, state) + One(MakesSession(AfterRun(p, clock, before), run[|run| - 1], state))
  }

  function Exchanging(calls: map<nat, Call>, state: string): set<nat> {
    set id | id in calls && Exchanges(calls[id], state)
  }

  predicate Exchanges(call: Call, state: string) { call.LoginExchange? && call.state == state }

  lemma ExchangingGone(calls: map<nat, Call>, id: nat, state: string)
    ensures |Exchanging(calls - {id}, state)| ==
            |Exchanging(calls, state)| - One(id in calls && Exchanges(calls[id], state))
  {
    hide Exchanges;
    assert Exchanging(calls - {id}, state) == Exchanging(calls, state) - {id};
  }

  lemma ExchangingMoved(calls: map<nat, Call>, id: nat, call: Call, state: string)
    ensures |Exchanging(calls[id := call], state)| ==
            |Exchanging(calls, state)| - One(id in calls && Exchanges(calls[id], state)) + One(Exchanges(call, state))
  {
    hide Exchanges, Exchanging;
    ExchangingGone(calls, id, state);
    ExchangingGone(calls[id := call], id, state);
    assert calls[id := call] - {id} == calls - {id};
  }

  predicate Spent(sys: Sys, state: string) { state in sys.txns && sys.txns[state].consumed.Some? }

  /** One step: a state is consumed only when unspent, and each consumption allows one session. */
  lemma LoginStep(sys: Sys, step: Step, state: string)
    ensures var sys' := Next(sys, step);
            && One(Spent(sys', state)) == One(Spent(sys, state)) + One(Consumes(sys, step, state))
            && |Exchanging(sys'.calls, state)| + One(MakesSession(sys, step, state))
               <= |Exchanging(sys.calls, state)| + One(Consumes(sys, step, state))
  {
    hide Exchanging, Advance, WantsTouch, Dead;
    match step
    case Resolve(id, token) => ExchangingMoved(sys.calls, id, ResolveFind(token, sys.steps), state);
    case Revoke(id, token) => ExchangingMoved(sys.calls, id, RevokeFind(token), state);
    case Login(id, s) => ExchangingMoved(sys.calls, id, LoginFind(s, sys.clock), state);
    case Crash(id) => ExchangingGone(sys.calls, id, state);
    case Do(id, user, token) => if id in sys.calls { LoginAdvance(sys, id, user, token, state); }
    case _ =>
  }

  lemma LoginAdvance(sys: Sys, id: nat, user: Option<string>, token: string, state: string)
    requires id in sys.calls
    ensures var sys', step := Next(sys, Do(id, user, token)), Do(id, user, token);
            && One(Spent(sys', state)) == One(Spent(sys, state)) + One(Consumes(sys, step, state))
            && |Exchanging(sys'.calls, state)| + One(MakesSession(sys, step, state))
               <= |Exchanging(sys.calls, state)| + One(Consumes(sys, step, state))
  {
    hide Exchanging, Advance, Spent, Consumes, MakesSession, Exchanges;
    AdvanceMoves(sys, id, user, token);
    var call' := Advance(sys, id, user, token).calls[id];
    ExchangingMoved(sys.calls, id, call', state);
    SpentStep(sys, id, user, token, state);
    ExchangeStep(sys, id, user, token, state);
  }

  lemma AdvanceMoves(sys: Sys, id: nat, user: Option<string>, token: string)
    requires id in sys.calls
    ensures var sys' := Advance(sys, id, user, token); id in sys'.calls && sys'.calls == sys.calls[id := sys'.calls[id]]
  {
    hide WantsTouch, Dead, Touched, Revoked, CasOf, ConsumedIn, ConsumeOf;
    assert sys.calls[id := sys.calls[id]] == sys.calls;
  }

  lemma SpentStep(sys: Sys, id: nat, user: Option<string>, token: string, state: string)
    requires id in sys.calls
    ensures One(Spent(Advance(sys, id, user, token), state)) ==
            One(Spent(sys, state)) + One(Consumes(sys, Do(id, user, token), state))
    ensures Spent(Next(sys, Do(id, user, token)), state) == Spent(Advance(sys, id, user, token), state)
  {
    hide WantsTouch, Dead, Touched, Revoked, CasOf;
  }

  lemma ExchangeStep(sys: Sys, id: nat, user: Option<string>, token: string, state: string)
    requires id in sys.calls && id in Advance(sys, id, user, token).calls
    ensures var call' := Advance(sys, id, user, token).calls[id];
            One(Exchanges(call', state)) + One(MakesSession(sys, Do(id, user, token), state))
            <= One(Exchanges(sys.calls[id], state)) + One(Consumes(sys, Do(id, user, token), state))
  {
    hide WantsTouch, Dead, Touched, Revoked, CasOf;
  }

  /** A state is spent at most once, and at most one session comes of it, under any interleaving and replay. */
  lemma {:induction false} SingleUse(p: Policy, clock: int, run: seq<Step>, state: string)
    ensures var sys := AfterRun(p, clock, run);
            && Consumptions(p, clock, run, state) == One(Spent(sys, state))
            && LoginsMade(p, clock, run, state) + |Exchanging(sys.calls, state)| <= Consumptions(p, clock, run, state) <= 1
  {
    hide Spent, Exchanging, Consumes, MakesSession, Next;
    if run == [] {
      NothingSpent(p, clock, state);
    } else {
      SingleUse(p, clock, run[..|run| - 1], state);
      LoginStep(AfterRun(p, clock, run[..|run| - 1]), run[|run| - 1], state);
    }
  }

  lemma NothingSpent(p: Policy, clock: int, state: string)
    ensures !Spent(Start(p, clock), state) && |Exchanging(Start(p, clock).calls, state)| == 0
  {
    assert Exchanging(map[], state) == {};
  }

  // ---- Calls on their own ------------------------------------------------

  /** A request that no other call disturbs: the session after it, and whether it is served. */
  function Serve(s: Session, now: int): (Session, bool) {
    if Dead(s, now) then (s, false)
    else if WantsTouch(s, now)
    then (s.(lastSeen := now, idle := now + WindowOf(s), version := s.version + 1), true)
    else (s, true)
  }

  predicate AllServed(s: Session, times: seq<int>)
    decreases |times|
  {
    times == [] || (Serve(s, times[0]).1 && AllServed(Serve(s, times[0]).0, times[1..]))
  }

  /** Never more than half a window from one request to the next. */
  predicate Paced(from: int, times: seq<int>, window: int)
    decreases |times|
  {
    times == [] || (from <= times[0] && 2 * (times[0] - from) <= window && Paced(times[0], times[1..], window))
  }

  predicate UpTo(times: seq<int>, end: int) { forall i | 0 <= i < |times| :: times[i] <= end }

  lemma {:induction false} PacedServed(s: Session, from: int, times: seq<int>)
    requires s.revoked.None? && 0 <= WindowOf(s) && s.lastSeen <= from <= s.idle
    requires from <= s.absolute - WindowOf(s)
    requires 2 * (from - s.lastSeen) <= WindowOf(s) || from == s.absolute - WindowOf(s)
    requires Paced(from, times, WindowOf(s)) && UpTo(times, s.absolute - WindowOf(s))
    ensures AllServed(s, times)
    decreases |times|
  {
    if times != [] {
      var t, s' := times[0], Serve(s, times[0]).0;
      assert t <= s.absolute - WindowOf(s);
      assert forall i | 0 <= i < |times| - 1 :: times[1..][i] == times[i + 1];
      PacedServed(s', t, times[1..]);
    }
  }

  /** An active user is never logged out before the absolute end less one window. */
  lemma ActiveStaysLoggedIn(p: Policy, user: string, now: int, times: seq<int>)
    requires Paced(now, times, p.window) && UpTo(times, now + p.lifetime - p.window)
    ensures AllServed(NewSession(p, user, now), times)
  {
    var s := NewSession(p, user, now);
    if times != [] { PacedServed(s, now, times); }
  }

  /**
   * Half a window is the longest safe pause: a request at half the window does not touch
   * the session, and one after a further pause is served exactly if the rest of the window
   * has not passed.
   */
  lemma HalfWindowIsTight(p: Policy, user: string, now: int, pause: nat)
    requires p.window / 2 + pause <= p.lifetime
    ensures var s := NewSession(p, user, now); var half := p.window / 2;
            && Serve(s, now + half) == (s, half <= p.lifetime)
            && (Serve(s, now + half + pause).1 <==> pause <= p.window - half)
  {
  }

  // ---- Calls of the machine that nothing disturbs ------------------------

  /** A request is served exactly while its session is unrevoked and unexpired, and touches it past half the window. */
  lemma ResolveAlone(sys: Sys, id: nat, token: string)
    requires id !in sys.calls
    ensures var sys' := Next(Next(Next(Next(sys, Resolve(id, token)), Do(id, None, "")), Do(id, None, "")), Do(id, None, ""));
            && id in sys'.calls && sys'.calls[id].Ended?
            && (if |token| < 20 || token !in sys.sessions
                then sys'.calls[id].outcome.NoPrincipal? && sys'.sessions == sys.sessions
                else
                  var s, now := sys.sessions[token], sys.clock;
                  var served := s.revoked.None? && now <= s.idle && now <= s.absolute;
                  var window := s.idle - s.lastSeen;
                  && (if served then sys'.calls[id].outcome.Principal? && sys'.calls[id].outcome.user == s.user
                      else sys'.calls[id].outcome.NoPrincipal?)
                  && sys'.sessions ==
                     (if served && 2 * (now - s.lastSeen) > window && s.absolute > now + window
                      then sys.sessions[token := s.(lastSeen := now, idle := now + window, version := s.version + 1)]
                      else sys.sessions))
  {
  }

  /** A revocation is final, and says whether there was anything to revoke. */
  lemma RevokeAlone(sys: Sys, id: nat, token: string)
    requires id !in sys.calls
    ensures var sys' := Next(Next(Next(sys, Step.Revoke(id, token)), Do(id, None, "")), Do(id, None, ""));
            && id in sys'.calls && sys'.calls[id].Ended?
            && sys'.calls[id].outcome ==
               (if token !in sys.sessions then Unauthenticated
                else if sys.sessions[token].revoked.Some? then AlreadyRevoked else RevokedNow)
            && sys'.sessions ==
               (if token in sys.sessions && sys.sessions[token].revoked.None?
                then sys.sessions[token := sys.sessions[token].(revoked := Some(sys.clock),
                                                                version := sys.sessions[token].version + 1)]
                else sys.sessions)
  {
  }

  /** A login needs a state stored no more than ten minutes before and not consumed; it consumes it before all else. */
  lemma LoginAlone(sys: Sys, id: nat, state: string, user: Option<string>, minted: string)
    requires id !in sys.calls
    ensures var sys' := Next(Next(Next(Next(sys, Step.Login(id, state)), Do(id, user, minted)), Do(id, user, minted)),
                             Do(id, user, minted));
            var known := state in sys.txns && sys.clock <= sys.txns[state].expires;
            var unspent := known && sys.txns[state].consumed.None?;
            && id in sys'.calls && sys'.calls[id].Ended?
            && sys'.calls[id].outcome ==
               (if !known then Unauthenticated else if !unspent then Replayed
                else if user.None? || minted in sys.sessions then ProviderFailed else LoggedIn(state, minted))
            && (state in sys'.txns <==> state in sys.txns)
            && (unspent ==> sys'.txns[state].consumed == Some(sys.clock))
            && (!unspent ==> sys'.txns == sys.txns)
            && sys'.sessions ==
               (if unspent && user.Some? && minted !in sys.sessions
                then sys.sessions[minted := Session(user.value, sys.clock, sys.clock, sys.clock + sys.policy.window,
                                                    sys.clock + sys.policy.lifetime, None, 0)]
                else sys.sessions)
  {
    hide Next;
    LoginFinds(sys, id, state, user, minted);
    var s2 := Next(Next(sys, Step.Login(id, state)), Do(id, user, minted));
    if s2.calls[id].Ended? {
      EndedStays(s2, id, user, minted);
      EndedStays(Next(s2, Do(id, user, minted)), id, user, minted);
    } else {
      LoginMints(s2, id, state, user, minted);
    }
  }

  lemma LoginFinds(sys: Sys, id: nat, state: string, user: Option<string>, minted: string)
    requires id !in sys.calls
    ensures var s := Next(Next(sys, Step.Login(id, state)), Do(id, user, minted));
            && id in s.calls && s.txns == sys.txns && s.sessions == sys.sessions && s.policy == sys.policy
            && s.calls[id] ==
               if !(state in sys.txns && sys.clock <= sys.txns[state].expires) then Ended(Unauthenticated)
               else if sys.txns[state].consumed.Some? then Ended(Replayed)
               else LoginConsume(state, sys.txns[state], sys.clock)
  {
  }

  lemma EndedStays(sys: Sys, id: nat, user: Option<string>, minted: string)
    requires id in sys.calls && sys.calls[id].Ended?
    ensures Next(sys, Do(id, user, minted)) == sys.(steps := sys.steps + 1)
  {
  }

  lemma LoginMints(sys: Sys, id: nat, state: string, user: Option<string>, minted: string)
    requires id in sys.calls && sys.calls[id].LoginConsume? && sys.calls[id].state == state
    requires state in sys.txns && sys.txns[state] == sys.calls[id].txn && sys.txns[state].consumed.None?
    ensures var s, now := Next(Next(sys, Do(id, user, minted)), Do(id, user, minted)), sys.calls[id].now;
            && id in s.calls && s.calls[id].Ended?
            && s.calls[id].outcome == (if user.None? || minted in sys.sessions then ProviderFailed else LoggedIn(state, minted))
            && (state in s.txns && s.txns[state].consumed == Some(now))
            && s.sessions ==
               (if user.Some? && minted !in sys.sessions
                then sys.sessions[minted := Session(user.value, now, now, now + sys.policy.window,
                                                    now + sys.policy.lifetime, None, 0)]
                else sys.sessions)
  {
  }

  lemma StartAlone(sys: Sys, state: string)
    ensures Next(sys, StartLogin(state)).txns ==
            if state in sys.txns then sys.txns else sys.txns[state := Txn(sys.clock + 600_000, None, 0)]
  {
  }

  datatype LoginResult = LoggedInAs(user: string) | NotAuthenticated | Replay | DependencyUnavailable | SessionConflict

  datatype RevokeResult = NoSession | Was(revoked: bool)

  class AuthenticationService {
    const sessions: SessionRepository
    const transactions: TransactionRepository
    const policy: Policy

    constructor (sessions: SessionRepository, transactions: TransactionRepository, policy: Policy)
      ensures this.sessions == sessions && this.transactions == transactions && this.policy == policy
    {
      this.sessions, this.transactions, this.policy := sessions, transactions, policy;
    }

    method StartLogin(state: string, now: int) returns (ok: bool)
      modifies transactions
      ensures ok <==> state !in old(transactions.transactions)
      ensures transactions.transactions ==
              if ok then old(transactions.transactions)[state := Txn(now + 600_000, None, 0)]
              else old(transactions.transactions)
    {
      ok := transactions.Insert(state, Txn(now + LOGIN_TTL_MS, None, 0));
    }

    /** identity is what the provider returns for the code, if it answers; token is freshly generated. */
    method CompleteLogin(state: Option<string>, code: Option<string>, identity: Option<string>, token: string, now: int)
      returns (r: LoginResult)
      modifies sessions, transactions
      ensures var txns, live := old(transactions.transactions), old(sessions.sessions);
              var known := state.Some? && code.Some? && state.value in txns && txns[state.value].expires >= now;
              && (r.NotAuthenticated? <==> !known)
              && (r.Replay? <==> known && txns[state.value].consumed.Some?)
              && transactions.transactions ==
                 (if known && txns[state.value].consumed.None?
                  then ConsumedIn(txns, state.value, now, txns[state.value].version) else txns)
              && (r.LoggedInAs? <==> known && txns[state.value].consumed.None? && identity.Some? && token !in live)
              && (r.DependencyUnavailable? <==> known && txns[state.value].consumed.None? && identity.None?)
              && sessions.sessions ==
                 (if r.LoggedInAs?
                  then live[token := Session(identity.value, now, now, now + policy.window, now + policy.lifetime, None, 0)]
                  else live)
      ensures r.LoggedInAs? ==> r.user == identity.value
    {
      if state.None? || code.None? { return NotAuthenticated; }
      if state.value !in transactions.transactions { return NotAuthenticated; }
      var txn := transactions.transactions[state.value];
      if txn.expires < now { return NotAuthenticated; }
      if txn.consumed.Some? { return Replay; }
      var cas := transactions.Consume(state.value, now, txn.version);
      if identity.None? { return DependencyUnavailable; }
      var ok := sessions.Insert(
        token, Session(identity.value, now, now, now + policy.window, now + policy.lifetime, None, 0));
      if !ok { return SessionConflict; }
      return LoggedInAs(identity.value);
    }

    method ResolvePrincipal(token: Option<string>, now: int) returns (user: Option<string>)
      modifies sessions
      ensures var live := old(sessions.sessions);
              var known := token.Some? && |token.value| >= MIN_TOKEN && token.value in live;
              && (user.Some? <==>
                    && token.Some? && |token.value| >= 20 && token.value in live && live[token.value].revoked.None?
                    && now <= live[token.value].idle && now <= live[token.value].absolute)
              && (!known ==> user.None? && sessions.sessions == live)
              && (known ==>
                    var (s, served) := Serve(live[token.value], now);
                    && user == (if served then Some(live[token.value].user) else None)
                    && sessions.sessions == live[token.value := s])
    {
      if token.None? || |token.value| < 20 { return None; }
      var key := token.value;
      if key !in sessions.sessions { return None; }
      var record := sessions.sessions[key];
      if record.revoked.Some? || record.idle < now || record.absolute < now {
        assert sessions.sessions[key := record] == sessions.sessions;
        return None;
      }
      var window := record.idle - record.lastSeen;
      if 2 * (now - record.lastSeen) > window && record.absolute - window > now {
        var _ := sessions.Touch(key, now, now + window, record.version);
      } else {
        assert sessions.sessions[key := record] == sessions.sessions;
      }
      return Some(record.user);
    }

    method RevokeIfExists(token: string, now: int) returns (r: RevokeResult)
      modifies sessions
      ensures var live := old(sessions.sessions);
              && (r.NoSession? <==> token !in live)
              && (r.Was? ==> token in sessions.sessions && sessions.sessions[token].revoked.Some?
                             && (r.revoked <==> live[token].revoked.None?))
              && sessions.sessions ==
                 (if r == Was(true) then Revoked(live, token, now, live[token].version) else live)
    {
      if token !in sessions.sessions { return NoSession; }
      var record := sessions.sessions[token];
      if record.revoked.Some? { return Was(false); }
      var cas := sessions.Revoke(token, now, record.version);
      return Was(cas.Done?);
    }
  }
}
