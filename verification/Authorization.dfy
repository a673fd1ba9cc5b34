/**
 * Repository authorization (packages/authorization/src/service.ts) over the evidence store
 * of apps/api/src/composition/container.ts: concurrent calls that may be served from
 * recorded evidence, and what backs each allowance.
 */
module Authorization {
  import opened Basics

  datatype Role = NoRole | Reader | Triager | Writer | Maintainer | Admin

  datatype Capability =
    | RepositoryRead | RepositoryConnect | PolicyRead | PolicyWrite | WorkflowStart | WorkflowCancel
    | ApprovalResolve | ArtifactRead | PrivilegedAction

  function Floor(c: Capability): set<Role> {
    match c
    case RepositoryRead => {Reader, Triager, Writer, Maintainer, Admin}
    case ArtifactRead => {Triager, Writer, Maintainer, Admin}
    case PolicyRead => {Triager, Writer, Maintainer, Admin}
    case WorkflowStart => {Writer, Maintainer, Admin}
    case WorkflowCancel => {Writer, Maintainer, Admin}
    case PolicyWrite => {Maintainer, Admin}
    case ApprovalResolve => {Maintainer, Admin}
    case PrivilegedAction => {Maintainer, Admin}
    case RepositoryConnect => {Admin}
  }

  predicate FreshRequired(c: Capability) {
    c in {PolicyWrite, ApprovalResolve, PrivilegedAction, WorkflowCancel, RepositoryConnect}
  }

  // ---- What the tables mean ----------------------------------------------

  function Rank(r: Role): nat {
    match r
    case NoRole => 0 case Reader => 1 case Triager => 2 case Writer => 3 case Maintainer => 4 case Admin => 5
  }

  /** The least rank each capability asks for. */
  function Least(c: Capability): nat {
    if c == RepositoryConnect then 5
    else if c in {PolicyWrite, ApprovalResolve, PrivilegedAction} then 4
    else if c in {WorkflowStart, WorkflowCancel} then 3
    else if c in {ArtifactRead, PolicyRead} then 2
    else 1
  }

  predicate Suffices(r: Role, c: Capability) { Rank(r) >= Least(c) }

  /** The floors are thresholds in the order of the roles. */
  lemma FloorIsLeastRank(r: Role, c: Capability)
    ensures r in Floor(c) <==> Suffices(r, c)
  {
  }

  datatype Binding = Binding(runId: Option<string>, approvalId: Option<string>)

  datatype PrincipalRef = User(userId: string, subject: string) | System(serviceId: string, binding: Binding)

  /** insist is the caller's demand for a fresh check; context names the operation at hand. */
  datatype Query = Query(
    principal: PrincipalRef, repo: string, capability: Capability, context: Option<Binding>, insist: bool)

  function SubjectKey(p: PrincipalRef): string {
    match p
    case User(userId, _) => "user:" + userId
    case System(serviceId, _) => "system:" + serviceId
  }

  predicate NeedsFresh(q: Query) { q.insist || FreshRequired(q.capability) }

  /** Recorded evidence may serve a read, or the start of a workflow, unless the caller insists. */
  predicate MayReuse(q: Query) {
    !q.insist && Ordinary(q.capability)
  }

  predicate Ordinary(c: Capability) { c.RepositoryRead? || c.ArtifactRead? || c.PolicyRead? || c.WorkflowStart? }

  lemma FreshIsPrivileged(q: Query)
    ensures NeedsFresh(q) <==> !MayReuse(q)
    ensures FreshRequired(q.capability) <==> !Ordinary(q.capability)
  {
  }

  /** authorizeSystemActor. */
  function SystemAllowed(q: Query): bool
    requires q.principal.System?
  {
    var bound := q.principal.binding;
    if q.capability !in {WorkflowStart, WorkflowCancel, ApprovalResolve} then false
    else if q.context.None? then false
    else if q.capability == ApprovalResolve then
      bound.approvalId.Some? && q.context.value.approvalId.Some? && bound.approvalId == q.context.value.approvalId
    else
      bound.runId.Some? && q.context.value.runId.Some? && bound.runId == q.context.value.runId
  }

  // ---- Evidence ----------------------------------------------------------

  /** A row carries the call that recorded it as its id. */
  datatype Row = Row(id: nat, key: string, repo: string, capability: Capability, allow: bool, checkedAt: int,
                     expires: Option<int>)

  predicate Matches(r: Row, key: string, repo: string, c: Capability, now: int) {
    r.key == key && r.repo == repo && r.capability == c && r.allow && r.expires.Some? && r.expires.value > now
  }

  /** The first match, or the number of rows. */
  function FirstMatch(rows: seq<Row>, key: string, repo: string, c: Capability, now: int): (i: nat)
    ensures i <= |rows| && (i < |rows| ==> Matches(rows[i], key, repo, c, now))
    ensures forall j | 0 <= j < i :: !Matches(rows[j], key, repo, c, now)
  {
    if rows == [] || Matches(rows[0], key, repo, c, now) then 0
    else
      var i := FirstMatch(rows[1..], key, repo, c, now);
      assert forall j | 1 <= j < i + 1 :: rows[j] == rows[1..][j - 1];
      i + 1
  }

  function RowFor(id: nat, q: Query, role: Role, checkedAt: int, ttl: nat): Row {
    var allowed := role in Floor(q.capability);
    Row(id, SubjectKey(q.principal), q.repo, q.capability, allowed, checkedAt,
        if allowed && !FreshRequired(q.capability) then Some(checkedAt + 1000 * ttl) else None)
  }

  function SystemRow(id: nat, q: Query, now: int): Row {
    Row(id, SubjectKey(q.principal), q.repo, q.capability, true, now, None)
  }

  class EvidenceStore {
    var rows: seq<Row>

    constructor ()
      ensures rows == []
    {
      rows := [];
    }

    method Append(row: Row)
      modifies this
      ensures rows == old(rows) + [row]
    {
      rows := rows + [row];
    }

    method FindFresh(key: string, repo: string, c: Capability, now: int) returns (found: Option<Row>)
      ensures found.Some? <==>
              exists i | 0 <= i < |rows| ::
                && rows[i].key == key && rows[i].repo == repo && rows[i].capability == c && rows[i].allow
                && rows[i].expires.Some? && now < rows[i].expires.value
      ensures var i := FirstMatch(rows, key, repo, c, now);
              found == if i < |rows| then Some(rows[i]) else None
    {
      for i := 0 to |rows|
        invariant forall j | 0 <= j < i :: !Matches(rows[j], key, repo, c, now)
      {
        if Matches(rows[i], key, repo, c, now) { return Some(rows[i]); }
      }
      return None;
    }
  }

  // ---- Concurrent calls --------------------------------------------------

  datatype Link = Pending | Active | Degraded | Disconnected

  /**
   * An answer of the provider, which is asked by subject: for whom, on what repository, at
   * what time, in which call.
   */
  datatype Observation = Observation(userId: string, subject: string, repo: string, role: Role, at: int, call: nat)

  function ObservationOf(q: Query, role: Role, at: int, call: nat): Observation
    requires q.principal.User?
  {
    Observation(q.principal.userId, q.principal.subject, q.repo, role, at, call)
  }

  datatype Reason = OutOfScope | LinkagePending | BelowFloor

  datatype Call =
    | Started(q: Query)
    | Lookup(q: Query, now: int)
    | Fetch(q: Query)
    | Record(q: Query, role: Role)
    | Allowed(q: Query, now: int)
    | Denied(q: Query, why: Reason)
    | Forbidden(q: Query)
    | Unavailable(q: Query)

  datatype Sys = Sys(
    ttl: nat, clock: int, links: map<string, Link>, rows: seq<Row>, seen: seq<Observation>, calls: map<nat, Call>)

  /** answer is what the provider says to a fetch, if anything. */
  datatype Step =
    | Tick(to: int)
    | Relink(repo: string, link: Option<Link>)
    | Begin(id: nat, q: Query)
    | Do(id: nat, answer: Option<Role>)

  function Next(sys: Sys, step: Step): Sys {
    match step
    case Tick(to) => if to > sys.clock then sys.(clock := to) else sys
    case Relink(repo, link) =>
      sys.(links := if link.None? then sys.links - {repo} else sys.links[repo := link.value])
    case Begin(id, q) => if id in sys.calls then sys else sys.(calls := sys.calls[id := Started(q)])
    case Do(id, answer) => if id in sys.calls then Advance(sys, id, answer) else sys
  }

  function At(sys: Sys, id: nat, call: Call): Sys { sys.(calls := sys.calls[id := call]) }

  function Advance(sys: Sys, id: nat, answer: Option<Role>): Sys
    requires id in sys.calls
  {
    match sys.calls[id]
    case Started(q) =>
      if q.principal.System? && !SystemAllowed(q) then At(sys, id, Denied(q, OutOfScope))
      else if q.repo !in sys.links || sys.links[q.repo] == Disconnected then At(sys, id, Forbidden(q))
      else if sys.links[q.repo] == Pending then At(sys, id, Denied(q, LinkagePending))
      else if q.principal.System? then
        At(sys.(rows := sys.rows + [SystemRow(id, q, sys.clock)]), id, Allowed(q, sys.clock))
      else if NeedsFresh(q) then At(sys, id, Fetch(q))
      else At(sys, id, Lookup(q, sys.clock))
    case Lookup(q, now) =>
      At(sys, id, if FirstMatch(sys.rows, SubjectKey(q.principal), q.repo, q.capability, now) < |sys.rows|
                  then Allowed(q, now) else Fetch(q))
    case Fetch(q) =>
      if answer.None? || !q.principal.User? then At(sys, id, Unavailable(q))
      else At(sys.(seen := sys.seen + [ObservationOf(q, answer.value, sys.clock, id)]), id,
              Record(q, answer.value))
    case Record(q, role) =>
      At(sys.(rows := sys.rows + [RowFor(id, q, role, sys.clock, sys.ttl)]), id,
         if role in Floor(q.capability) then Allowed(q, sys.clock) else Denied(q, BelowFloor))
    case _ => sys
  }

  function Start(ttl: nat, clock: int): Sys { Sys(ttl, clock, map[], [], [], map[]) }

  function AfterRun(ttl: nat, clock: int, run: seq<Step>): Sys {
    if run == [] then Start(ttl, clock) else Next(AfterRun(ttl, clock, run[..|run| - 1]), run[|run| - 1])
  }

  // ---- What backs an allowance -------------------------------------------

  /** The provider said of this user and repository a role that meets the floor, not later than at. */
  predicate Vouches(o: Observation, key: string, repo: string, c: Capability, at: int) {
    "user:" + o.userId == key && o.repo == repo && Suffices(o.role, c) && o.at <= at
  }

  /** What the provider vouched for in that call. */
  ghost predicate VouchedIn(sys: Sys, call: nat, key: string, repo: string, c: Capability, at: int) {
    exists j | 0 <= j < |sys.seen| :: sys.seen[j].call == call && Vouches(sys.seen[j], key, repo, c, at)
  }

  /** The provider was asked in this call and answered this. */
  ghost predicate SeenIn(sys: Sys, id: nat, q: Query, role: Role) {
    exists j | 0 <= j < |sys.seen| ::
      q.principal.User? && sys.seen[j].at <= sys.clock && sys.seen[j] == ObservationOf(q, role, sys.seen[j].at, id)
  }

  /** A row that can be reused rests on what its own call observed, and expires one TTL after it was recorded. */
  ghost predicate RowOk(sys: Sys, r: Row) {
    r.expires.Some? ==>
      && !FreshRequired(r.capability) && r.checkedAt <= sys.clock && r.expires.value == r.checkedAt + 1000 * sys.ttl
      && VouchedIn(sys, r.id, r.key, r.repo, r.capability, r.checkedAt)
  }

  /** Recorded evidence of the query, less than one TTL old at that time. */
  ghost predicate Recent(sys: Sys, q: Query, now: int) {
    exists i | 0 <= i < |sys.rows| ::
      && Matches(sys.rows[i], SubjectKey(q.principal), q.repo, q.capability, now)
      && RowOk(sys, sys.rows[i])
  }

  ghost predicate SeenGood(sys: Sys, id: nat, q: Query) {
    exists role :: SeenIn(sys, id, q, role) && Suffices(role, q.capability)
  }

  ghost predicate CallOk(sys: Sys, id: nat, call: Call) {
    match call
    case Lookup(q, now) => q.principal.User? && MayReuse(q)
    case Fetch(q) => q.principal.User?
    case Record(q, role) => SeenIn(sys, id, q, role)
    case Allowed(q, now) =>
      if q.principal.System? then SystemAllowed(q) && SystemRow(id, q, now) in sys.rows
      else SeenGood(sys, id, q) || (MayReuse(q) && Recent(sys, q, now))
    case Denied(q, BelowFloor) => exists role :: SeenIn(sys, id, q, role) && !Suffices(role, q.capability)
    case _ => true
  }

  /** Past the point of asking the provider. */
  predicate Asked(call: Call) { call.Record? || call.Allowed? || call.Denied? }

  /** Where a call stands that was answered this role: it decides. */
  predicate DecidedBy(call: Call, role: Role) {
    match call
    case Record(_, answered) => answered == role
    case Allowed(q, _) => Suffices(role, q.capability)
    case Denied(q, why) => why == BelowFloor && !Suffices(role, q.capability)
    case _ => false
  }

  /** An observation is of the query of its call, and decides it. */
  predicate SeenOk(sys: Sys, o: Observation) {
    && o.call in sys.calls && DecidedBy(sys.calls[o.call], o.role)
    && sys.calls[o.call].q.principal == User(o.userId, o.subject) && sys.calls[o.call].q.repo == o.repo
  }

  predicate OnceEach(seen: seq<Observation>) {
    forall i, j | 0 <= i < j < |seen| :: seen[i].call != seen[j].call
  }

  ghost predicate Inv(sys: Sys) {
    && (forall i | 0 <= i < |sys.rows| :: RowOk(sys, sys.rows[i]))
    && (forall id | id in sys.calls :: CallOk(sys, id, sys.calls[id]))
    && (forall j | 0 <= j < |sys.seen| :: SeenOk(sys, sys.seen[j]))
    && OnceEach(sys.seen)
  }

  ghost predicate Grows(sys: Sys, sys': Sys) {
    && sys'.ttl == sys.ttl && sys'.clock >= sys.clock
    && |sys.rows| <= |sys'.rows| && sys'.rows[..|sys.rows|] == sys.rows
    && |sys.seen| <= |sys'.seen| && sys'.seen[..|sys.seen|] == sys.seen
  }

  /** What comes after an answered call. */
  predicate Follows(call: Call, call': Call) {
    call' == call || (call.Record? && call'.q == call.q && DecidedBy(call', call.role))
  }

  /** A call keeps its query, and does not go back to before it asked. */
  predicate Continues(sys: Sys, sys': Sys) {
    forall id | id in sys.calls ::
      && id in sys'.calls && sys'.calls[id].q == sys.calls[id].q
      && (Asked(sys.calls[id]) ==> Asked(sys'.calls[id]) && Follows(sys.calls[id], sys'.calls[id]))
  }

  lemma VouchedStays(sys: Sys, sys': Sys, call: nat, key: string, repo: string, c: Capability, at: int)
    requires Grows(sys, sys') && VouchedIn(sys, call, key, repo, c, at)
    ensures VouchedIn(sys', call, key, repo, c, at)
  {
    var j :| 0 <= j < |sys.seen| && sys.seen[j].call == call && Vouches(sys.seen[j], key, repo, c, at);
    assert sys'.seen[j] == sys'.seen[..|sys.seen|][j];
  }

  lemma SeenStays(sys: Sys, sys': Sys, id: nat, q: Query, role: Role)
    requires Grows(sys, sys') && SeenIn(sys, id, q, role)
    ensures SeenIn(sys', id, q, role)
  {
    var j :| 0 <= j < |sys.seen| && q.principal.User? && sys.seen[j].at <= sys.clock
             && sys.seen[j] == ObservationOf(q, role, sys.seen[j].at, id);
    assert sys'.seen[j] == sys'.seen[..|sys.seen|][j];
  }

  lemma RowStays(sys: Sys, sys': Sys, r: Row)
    requires Grows(sys, sys') && RowOk(sys, r)
    ensures RowOk(sys', r)
  {
    hide VouchedIn;
    if r.expires.Some? { VouchedStays(sys, sys', r.id, r.key, r.repo, r.capability, r.checkedAt); }
  }

  lemma RecentStays(sys: Sys, sys': Sys, q: Query, now: int)
    requires Grows(sys, sys') && Recent(sys, q, now)
    ensures Recent(sys', q, now)
  {
    hide Matches, RowOk, SubjectKey;
    var i :| 0 <= i < |sys.rows| && Matches(sys.rows[i], SubjectKey(q.principal), q.repo, q.capability, now)
             && RowOk(sys, sys.rows[i]);
    assert sys'.rows[i] == sys'.rows[..|sys.rows|][i];
    RowStays(sys, sys', sys.rows[i]);
  }

  lemma CallStays(sys: Sys, sys': Sys, id: nat, call: Call)
    requires Grows(sys, sys') && CallOk(sys, id, call)
    ensures CallOk(sys', id, call)
  {
    hide SeenIn, Recent, Floor;
    match call
    case Record(q, role) => SeenStays(sys, sys', id, q, role);
    case Allowed(q, now) =>
      assert forall r | r in sys'.rows[..|sys.rows|] :: r in sys'.rows;
      if role :| SeenIn(sys, id, q, role) && Suffices(role, q.capability) { SeenStays(sys, sys', id, q, role); }
      if Recent(sys, q, now) { RecentStays(sys, sys', q, now); }
    case Denied(q, BelowFloor) =>
      var role :| SeenIn(sys, id, q, role) && !Suffices(role, q.capability);
      SeenStays(sys, sys', id, q, role);
    case _ =>
  }

  lemma InvKept(sys: Sys, sys': Sys)
    requires Inv(sys) && Grows(sys, sys') && Continues(sys, sys')
    requires forall i | |sys.rows| <= i < |sys'.rows| :: RowOk(sys', sys'.rows[i])
    requires forall j | |sys.seen| <= j < |sys'.seen| :: SeenOk(sys', sys'.seen[j])
    requires OnceEach(sys'.seen)
    requires forall id | id in sys'.calls ::
               CallOk(sys', id, sys'.calls[id]) || (id in sys.calls && sys'.calls[id] == sys.calls[id])
    ensures Inv(sys')
  {
    hide CallOk, RowOk, OnceEach, Asked, SeenOk, Follows;
    forall i | 0 <= i < |sys'.rows| ensures RowOk(sys', sys'.rows[i]) {
      if i < |sys.rows| {
        assert sys'.rows[i] == sys'.rows[..|sys.rows|][i];
        RowStays(sys, sys', sys.rows[i]);
      }
    }
    forall j | 0 <= j < |sys'.seen| ensures SeenOk(sys', sys'.seen[j]) {
      if j < |sys.seen| {
        assert sys'.seen[j] == sys'.seen[..|sys.seen|][j];
        assert SeenOk(sys, sys.seen[j]);
        SeenStaysOk(sys, sys', sys.seen[j]);
      }
    }
    forall id | id in sys'.calls ensures CallOk(sys', id, sys'.calls[id]) {
      if !CallOk(sys', id, sys'.calls[id]) { CallStays(sys, sys', id, sys.calls[id]); }
    }
  }

  lemma SeenStaysOk(sys: Sys, sys': Sys, o: Observation)
    requires SeenOk(sys, o) && Continues(sys, sys')
    ensures SeenOk(sys', o)
  {
  }

  lemma StepKeeps(sys: Sys, step: Step)
    requires Inv(sys)
    ensures Inv(Next(sys, step))
  {
    hide CallOk, RowOk, Inv, SeenOk, OnceEach, Asked;
    var sys' := Next(sys, step);
    SeenOnce(sys);
    match step
    case Tick(_) => InvKept(sys, sys');
    case Relink(_, _) => InvKept(sys, sys');
    case Begin(id, q) => StartedOk(sys', id, q); InvKept(sys, sys');
    case Do(id, answer) => if id in sys.calls { AdvanceKeeps(sys, id, answer); }
  }

  lemma SeenOnce(sys: Sys)
    requires Inv(sys)
    ensures OnceEach(sys.seen)
  {
  }

  lemma StartedOk(sys: Sys, id: nat, q: Query)
    ensures CallOk(sys, id, Started(q))
  {
  }

  lemma AdvanceKeeps(sys: Sys, id: nat, answer: Option<Role>)
    requires Inv(sys) && id in sys.calls
    ensures Inv(Advance(sys, id, answer))
  {
    hide Inv, SeenIn, RowOk, Recent, Floor, SystemAllowed, FirstMatch, SeenOk, OnceEach, NeedsFresh, MayReuse, Suffices;
    var sys', call := Advance(sys, id, answer), sys.calls[id];
    OkNow(sys, id);
    SeenOnce(sys);
    assert sys.calls[id := call] == sys.calls;
    assert sys'.rows[..|sys.rows|] == sys.rows && sys'.seen[..|sys.seen|] == sys.seen;
    match call {
      case Started(q) =>
        NoExpiry(sys', SystemRow(id, q, sys.clock));
        assert |sys.rows| < |sys'.rows| ==> sys'.rows[|sys.rows|] == SystemRow(id, q, sys.clock);
      case Lookup(q, now) => LookupOk(sys, q, now); RecentStaysIf(sys, sys', q, now);
      case Fetch(q) => if answer.Some? { FetchOk(sys, sys', id, q, answer.value); }
      case Record(q, role) => RecordOk(sys, sys', id, q, role); FloorIsLeastRank(role, q.capability);
      case _ =>
    }
    FreshIsPrivileged(call.q);
    assert CallOk(sys', id, sys'.calls[id]);
    Moved(sys, sys', id);
  }

  lemma RecentStaysIf(sys: Sys, sys': Sys, q: Query, now: int)
    requires Grows(sys, sys')
    ensures Recent(sys, q, now) ==> Recent(sys', q, now)
  {
    if Recent(sys, q, now) { RecentStays(sys, sys', q, now); }
  }

  lemma Moved(sys: Sys, sys': Sys, id: nat)
    requires Inv(sys) && Grows(sys, sys') && id in sys.calls && id in sys'.calls
    requires sys'.calls == sys.calls[id := sys'.calls[id]]
    requires sys'.calls[id].q == sys.calls[id].q
    requires Asked(sys.calls[id]) ==> Asked(sys'.calls[id]) && Follows(sys.calls[id], sys'.calls[id])
    requires CallOk(sys', id, sys'.calls[id]) && OnceEach(sys'.seen)
    requires forall i | |sys.rows| <= i < |sys'.rows| :: RowOk(sys', sys'.rows[i])
    requires forall j | |sys.seen| <= j < |sys'.seen| :: SeenOk(sys', sys'.seen[j])
    ensures Inv(sys')
  {
    hide CallOk, RowOk, Inv, Grows, SeenOk, OnceEach, Asked;
    forall other | other in sys'.calls
      ensures CallOk(sys', other, sys'.calls[other]) || (other in sys.calls && sys'.calls[other] == sys.calls[other])
    {
    }
    InvKept(sys, sys');
  }

  lemma OkNow(sys: Sys, id: nat)
    requires Inv(sys) && id in sys.calls
    ensures CallOk(sys, id, sys.calls[id])
  {
  }

  lemma NoExpiry(sys: Sys, r: Row)
    requires r.expires.None?
    ensures RowOk(sys, r)
  {
  }

  lemma LookupOk(sys: Sys, q: Query, now: int)
    requires Inv(sys)
    ensures FirstMatch(sys.rows, SubjectKey(q.principal), q.repo, q.capability, now) < |sys.rows| ==> Recent(sys, q, now)
  {
    hide RowOk, SubjectKey, CallOk, SeenOk, OnceEach;
    var i := FirstMatch(sys.rows, SubjectKey(q.principal), q.repo, q.capability, now);
    if i < |sys.rows| { assert RowOk(sys, sys.rows[i]); }
  }

  /** The first and only answer of a call. */
  lemma FetchOk(sys: Sys, sys': Sys, id: nat, q: Query, role: Role)
    requires Inv(sys) && id in sys.calls && sys.calls[id] == Fetch(q) && q.principal.User?
    requires sys' == Advance(sys, id, Some(role))
    ensures SeenIn(sys', id, q, role) && OnceEach(sys'.seen)
    ensures SeenOk(sys', sys'.seen[|sys.seen|])
  {
    hide RowOk, CallOk;
    var o := sys'.seen[|sys.seen|];
    assert o == ObservationOf(q, role, o.at, id);
    forall j | 0 <= j < |sys.seen| ensures sys'.seen[j].call != id {
      assert SeenOk(sys, sys.seen[j]);
    }
  }

  lemma RecordOk(sys: Sys, sys': Sys, id: nat, q: Query, role: Role)
    requires SeenIn(sys, id, q, role) && sys'.seen == sys.seen && sys'.clock == sys.clock && sys'.ttl == sys.ttl
    ensures RowOk(sys', RowFor(id, q, role, sys.clock, sys.ttl))
    ensures SeenIn(sys', id, q, role) && q.principal.User?
  {
    hide Floor;
    var j :| 0 <= j < |sys.seen| && q.principal.User? && sys.seen[j].at <= sys.clock
             && sys.seen[j] == ObservationOf(q, role, sys.seen[j].at, id);
    assert sys'.seen[j] == sys.seen[j];
    FloorIsLeastRank(role, q.capability);
    if role in Floor(q.capability) {
      assert Vouches(sys'.seen[j], SubjectKey(q.principal), q.repo, q.capability, sys.clock);
    }
  }

  lemma {:induction false} AlwaysInv(ttl: nat, clock: int, run: seq<Step>)
    ensures Inv(AfterRun(ttl, clock, run)) && AfterRun(ttl, clock, run).ttl == ttl
  {
    hide Inv, Advance;
    if run == [] {
      StartInv(ttl, clock);
    } else {
      AlwaysInv(ttl, clock, run[..|run| - 1]);
      StepKeeps(AfterRun(ttl, clock, run[..|run| - 1]), run[|run| - 1]);
      TtlStays(AfterRun(ttl, clock, run[..|run| - 1]), run[|run| - 1]);
    }
  }

  lemma StartInv(ttl: nat, clock: int)
    ensures Inv(Start(ttl, clock))
  {
  }

  lemma TtlStays(sys: Sys, step: Step)
    ensures Next(sys, step).ttl == sys.ttl
  {
  }

  // ---- Main results ------------------------------------------------------

  /** Evidence in row i for the query, less than one TTL old, resting on answer j of the call that recorded it. */
  predicate RestsOn(sys: Sys, q: Query, now: int, i: nat, j: nat) {
    && i < |sys.rows| && j < |sys.seen|
    && Matches(sys.rows[i], SubjectKey(q.principal), q.repo, q.capability, now)
    && sys.rows[i].checkedAt <= sys.clock && now < sys.rows[i].checkedAt + 1000 * sys.ttl
    && sys.seen[j].call == sys.rows[i].id
    && Vouches(sys.seen[j], SubjectKey(q.principal), q.repo, q.capability, sys.rows[i].checkedAt)
  }

  /**
   * A user is allowed only on the word of the provider: a role for that user and repository
   * that meets the floor, answered in the same call; or, where a fresh check is neither
   * asked for nor required, behind an allowance of the same user, repository and capability
   * that was recorded less than one TTL before by the call that got the answer.
   */
  lemma UserAllowBacked(ttl: nat, clock: int, run: seq<Step>, id: nat)
    requires var sys := AfterRun(ttl, clock, run);
             id in sys.calls && sys.calls[id].Allowed? && sys.calls[id].q.principal.User?
    ensures var sys := AfterRun(ttl, clock, run); var q, now := sys.calls[id].q, sys.calls[id].now;
            || VouchedIn(sys, id, SubjectKey(q.principal), q.repo, q.capability, sys.clock)
            || (MayReuse(q) && exists i, j :: RestsOn(sys, q, now, i, j))
  {
    var sys := AfterRun(ttl, clock, run);
    var q, now := sys.calls[id].q, sys.calls[id].now;
    AlwaysInv(ttl, clock, run);
    OkNow(sys, id);
    if SeenGood(sys, id, q) { GoodVouches(sys, id, q); } else { var _, _ := RecentRests(sys, q, now); }
  }

  lemma GoodVouches(sys: Sys, id: nat, q: Query)
    requires SeenGood(sys, id, q)
    ensures VouchedIn(sys, id, SubjectKey(q.principal), q.repo, q.capability, sys.clock)
  {
    hide Floor;
    var role :| SeenIn(sys, id, q, role) && Suffices(role, q.capability);
    var j :| 0 <= j < |sys.seen| && q.principal.User? && sys.seen[j].at <= sys.clock
             && sys.seen[j] == ObservationOf(q, role, sys.seen[j].at, id);
    assert Vouches(sys.seen[j], SubjectKey(q.principal), q.repo, q.capability, sys.clock);
  }

  lemma RecentRests(sys: Sys, q: Query, now: int) returns (i: nat, j: nat)
    requires Recent(sys, q, now)
    ensures RestsOn(sys, q, now, i, j)
  {
    hide Floor, SubjectKey, Vouches;
    i :| 0 <= i < |sys.rows| && Matches(sys.rows[i], SubjectKey(q.principal), q.repo, q.capability, now)
         && RowOk(sys, sys.rows[i]);
    j :| 0 <= j < |sys.seen| && sys.seen[j].call == sys.rows[i].id
         && Vouches(sys.seen[j], SubjectKey(q.principal), q.repo, q.capability, sys.rows[i].checkedAt);
  }

  /** At step m of the run the call went through the linkage gate: its repository was linked and usable. */
  predicate GateAt(ttl: nat, clock: int, run: seq<Step>, id: nat, m: nat) {
    m < |run| && run[m].Do? && run[m].id == id &&
    var sys := AfterRun(ttl, clock, run[..m]);
    && id in sys.calls && sys.calls[id].Started? && sys.calls[id].q.repo in sys.links
    && sys.links[sys.calls[id].q.repo] in {Active, Degraded}
    && id in AfterRun(ttl, clock, run).calls && AfterRun(ttl, clock, run).calls[id].q == sys.calls[id].q
  }

  /** Past the gate. */
  predicate Admitted(call: Call) {
    call.Lookup? || call.Fetch? || call.Record? || call.Allowed? || call.Unavailable?
    || (call.Denied? && call.why == BelowFloor)
  }

  lemma GateStep(sys: Sys, step: Step, id: nat)
    requires id in Next(sys, step).calls && Admitted(Next(sys, step).calls[id])
    ensures id in sys.calls && Next(sys, step).calls[id].q == sys.calls[id].q
    ensures !Admitted(sys.calls[id]) ==>
              && step.Do? && step.id == id && sys.calls[id].Started?
              && sys.calls[id].q.repo in sys.links && sys.links[sys.calls[id].q.repo] in {Active, Degraded}
  {
    hide Floor, SystemAllowed, FirstMatch;
  }

  /** Every call that is served, users and system actors alike, found its repository linked at a moment of the call. */
  lemma {:induction false} AllowPassedGate(ttl: nat, clock: int, run: seq<Step>, id: nat)
    requires var sys := AfterRun(ttl, clock, run); id in sys.calls && Admitted(sys.calls[id])
    ensures exists m: nat :: GateAt(ttl, clock, run, id, m)
  {
    hide Next, Admitted;
    if run == [] {
    } else {
      var n := |run| - 1;
      var before := run[..n];
      GateStep(AfterRun(ttl, clock, before), run[n], id);
      if Admitted(AfterRun(ttl, clock, before).calls[id]) {
        AllowPassedGate(ttl, clock, before, id);
        var m: nat :| GateAt(ttl, clock, before, id, m);
        assert run[..m] == before[..m] && GateAt(ttl, clock, run, id, m);
      } else {
        assert GateAt(ttl, clock, run, id, n);
      }
    }
  }

  /** The provider answers a call at most once, for the user, subject and repository the call asks about. */
  lemma OneAnswerPerCall(ttl: nat, clock: int, run: seq<Step>, j: nat)
    requires j < |AfterRun(ttl, clock, run).seen|
    ensures var sys := AfterRun(ttl, clock, run); var o := sys.seen[j];
            && o.call in sys.calls && sys.calls[o.call].q.principal == User(o.userId, o.subject)
            && sys.calls[o.call].q.repo == o.repo
            && forall k | 0 <= k < |sys.seen| && sys.seen[k].call == o.call :: k == j
  {
    hide RowOk, CallOk;
    AlwaysInv(ttl, clock, run);
    assert SeenOk(AfterRun(ttl, clock, run), AfterRun(ttl, clock, run).seen[j]);
  }

  /** All calls made for a user id name one subject. */
  predicate OneSubject(sys: Sys, userId: string, subject: string) {
    forall id | id in sys.calls && sys.calls[id].q.principal.User? && sys.calls[id].q.principal.userId == userId ::
      sys.calls[id].q.principal.subject == subject
  }

  /**
   * The answer is about the query's own subject whenever a fresh check is due, and for
   * reused evidence while the user id is queried under one subject.
   */
  lemma AllowOnOwnSubject(ttl: nat, clock: int, run: seq<Step>, id: nat)
    requires var sys := AfterRun(ttl, clock, run);
             id in sys.calls && sys.calls[id].Allowed? && sys.calls[id].q.principal.User?
    requires var sys := AfterRun(ttl, clock, run); var q := sys.calls[id].q;
             !MayReuse(q) || OneSubject(sys, q.principal.userId, q.principal.subject)
    ensures var sys := AfterRun(ttl, clock, run); var q := sys.calls[id].q;
            exists j | 0 <= j < |sys.seen| ::
              && sys.seen[j].subject == q.principal.subject && sys.seen[j].userId == q.principal.userId
              && (!MayReuse(q) ==> sys.seen[j].call == id)
              && Vouches(sys.seen[j], SubjectKey(q.principal), q.repo, q.capability, sys.clock)
  {
    hide AfterRun, Inv, Floor, SystemAllowed;
    var sys := AfterRun(ttl, clock, run);
    var q, now := sys.calls[id].q, sys.calls[id].now;
    UserAllowBacked(ttl, clock, run, id);
    var j: nat;
    if VouchedIn(sys, id, SubjectKey(q.principal), q.repo, q.capability, sys.clock) {
      j :| 0 <= j < |sys.seen| && sys.seen[j].call == id
           && Vouches(sys.seen[j], SubjectKey(q.principal), q.repo, q.capability, sys.clock);
    } else {
      var i: nat;
      i, j :| RestsOn(sys, q, now, i, j);
    }
    OneAnswerPerCall(ttl, clock, run, j);
    SameUser(sys.seen[j].userId, q.principal.userId);
  }

  lemma SameUser(a: string, b: string)
    ensures "user:" + a == "user:" + b ==> a == b
  {
    assert ("user:" + a)[5..] == a && ("user:" + b)[5..] == b;
  }

  lemma RunOn(ttl: nat, clock: int, run: seq<Step>, step: Step)
    ensures AfterRun(ttl, clock, run + [step]) == Next(AfterRun(ttl, clock, run), step)
  {
    assert (run + [step])[..|run|] == run;
  }

  function ReadQuery(user: string, subject: string, repo: string): Query {
    Query(User(user, subject), repo, RepositoryRead, None, false)
  }

  /**
   * Otherwise it need not be: whoever is queried under a user id is allowed what the
   * provider granted to another subject of that id.
   */
  lemma OtherSubjectAllowed(ttl: nat, clock: int, user: string, first: string, second: string, repo: string)
    returns (run: seq<Step>)
    requires ttl > 0 && first != second
    ensures var sys := AfterRun(ttl, clock, run);
            && 1 in sys.calls && sys.calls[1] == Allowed(ReadQuery(user, second, repo), clock)
            && sys.seen == [ObservationOf(ReadQuery(user, first, repo), Reader, clock, 0)]
  {
    hide AfterRun;
    var r1 := GrantedRun(ttl, clock, user, first, repo);
    var q := ReadQuery(user, second, repo);
    RunOn(ttl, clock, r1, Begin(1, q));
    var r2 := r1 + [Begin(1, q)];
    RunOn(ttl, clock, r2, Do(1, None));
    var r3 := r2 + [Do(1, None)];
    RunOn(ttl, clock, r3, Do(1, None));
    run := r3 + [Do(1, None)];
  }

  /** A run in which one user is granted read access on an answer, at the very start. */
  lemma GrantedRun(ttl: nat, clock: int, user: string, subject: string, repo: string) returns (run: seq<Step>)
    ensures var q := ReadQuery(user, subject, repo);
            AfterRun(ttl, clock, run) ==
            Sys(ttl, clock, map[repo := Active], [RowFor(0, q, Reader, clock, ttl)],
                [ObservationOf(q, Reader, clock, 0)], map[0 := Allowed(q, clock)])
  {
    hide AfterRun;
    var q := ReadQuery(user, subject, repo);
    assert AfterRun(ttl, clock, []) == Start(ttl, clock) by { NoRun(ttl, clock); }
    RunOn(ttl, clock, [], Relink(repo, Some(Active)));
    var r1 := [] + [Relink(repo, Some(Active))];
    RunOn(ttl, clock, r1, Begin(0, q));
    var r2 := r1 + [Begin(0, q)];
    RunOn(ttl, clock, r2, Do(0, None));
    var r3 := r2 + [Do(0, None)];
    RunOn(ttl, clock, r3, Do(0, None));
    var r4 := r3 + [Do(0, None)];
    RunOn(ttl, clock, r4, Do(0, Some(Reader)));
    var r5 := r4 + [Do(0, Some(Reader))];
    RunOn(ttl, clock, r5, Do(0, None));
    run := r5 + [Do(0, None)];
  }

  lemma NoRun(ttl: nat, clock: int)
    ensures AfterRun(ttl, clock, []) == Start(ttl, clock)
  {
  }

  /** A denial for a low role is never served from evidence: the provider said so in that call. */
  lemma DenialIsFresh(ttl: nat, clock: int, run: seq<Step>, id: nat)
    requires var sys := AfterRun(ttl, clock, run);
             id in sys.calls && sys.calls[id].Denied? && sys.calls[id].why == BelowFloor
    ensures var sys := AfterRun(ttl, clock, run); var q := sys.calls[id].q;
            exists j | 0 <= j < |sys.seen| ::
              && sys.seen[j].call == id && q.principal == User(sys.seen[j].userId, sys.seen[j].subject)
              && sys.seen[j].repo == q.repo && !Suffices(sys.seen[j].role, q.capability)
  {
    hide Floor;
    var sys := AfterRun(ttl, clock, run);
    var q := sys.calls[id].q;
    AlwaysInv(ttl, clock, run);
    OkNow(sys, id);
    var role :| SeenIn(sys, id, q, role) && !Suffices(role, q.capability);
  }

  /**
   * A system actor is allowed only what its persisted binding names; the evidence is its
   * own, cannot be reused, and is never that of a user.
   */
  lemma SystemAllowScoped(ttl: nat, clock: int, run: seq<Step>, id: nat)
    requires var sys := AfterRun(ttl, clock, run);
             id in sys.calls && sys.calls[id].Allowed? && sys.calls[id].q.principal.System?
    ensures var sys := AfterRun(ttl, clock, run); var q := sys.calls[id].q;
            && q.capability in {WorkflowStart, WorkflowCancel, ApprovalResolve} && q.context.Some?
            && (q.capability == ApprovalResolve ==>
                  q.context.value.approvalId.Some? && q.context.value.approvalId == q.principal.binding.approvalId)
            && (q.capability != ApprovalResolve ==>
                  q.context.value.runId.Some? && q.context.value.runId == q.principal.binding.runId)
            && (exists r | r in sys.rows :: r.id == id && r.key == "system:" + q.principal.serviceId && r.expires.None?)
            && forall r, user: string, subject: string | r in sys.rows && r.key == SubjectKey(User(user, subject)) ::
                 r.key != SubjectKey(q.principal)
  {
    AlwaysInv(ttl, clock, run);
    var sys := AfterRun(ttl, clock, run);
    OkNow(sys, id);
    var q := sys.calls[id].q;
    assert SystemRow(id, q, sys.calls[id].now) in sys.rows;
    assert SubjectKey(q.principal)[0] == 's';
    forall user: string, subject: string ensures SubjectKey(User(user, subject)) != SubjectKey(q.principal) {
      assert SubjectKey(User(user, subject))[0] == 'u';
    }
  }

  /** A higher role never loses a capability; no role has none. */
  lemma FloorsAreUpward(low: Role, high: Role, c: Capability)
    requires low in Floor(c) && Rank(low) <= Rank(high)
    ensures high in Floor(c) && low != NoRole
  {
  }

  /** An answered call ends as the role says: allowed from the least rank of its capability on, denied below. */
  lemma AnswerDecides(ttl: nat, clock: int, run: seq<Step>, j: nat)
    requires j < |AfterRun(ttl, clock, run).seen|
    ensures var sys := AfterRun(ttl, clock, run); var o := sys.seen[j];
            && o.call in sys.calls
            && var call := sys.calls[o.call];
               && (call.Record? || call.Allowed? || call == Denied(call.q, BelowFloor))
               && (!call.Record? ==> (call.Allowed? <==> Rank(o.role) >= Least(call.q.capability)))
  {
    hide RowOk, CallOk;
    AlwaysInv(ttl, clock, run);
    assert SeenOk(AfterRun(ttl, clock, run), AfterRun(ttl, clock, run).seen[j]);
  }

  // ---- A call on its own -------------------------------------------------

  datatype Decision = Allow | Deny(why: Reason) | RepositoryForbidden | ProviderUnavailable

  /** A system actor asks for the run or the approval it is bound to. */
  predicate InScope(q: Query) {
    q.principal.System? ==>
      && q.context.Some?
      && var bound, asked := q.principal.binding, q.context.value;
         || ((q.capability == WorkflowStart || q.capability == WorkflowCancel)
             && bound.runId.Some? && asked.runId == bound.runId)
         || (q.capability == ApprovalResolve && bound.approvalId.Some? && asked.approvalId == bound.approvalId)
  }

  lemma ScopeIsBinding(q: Query)
    requires q.principal.System?
    ensures SystemAllowed(q) <==> InScope(q)
  {
  }

  /** Evidence that serves a user's query. */
  predicate Serves(r: Row, q: Query, now: int) {
    && q.principal.User? && r.key == "user:" + q.principal.userId && r.repo == q.repo && r.capability == q.capability
    && r.allow && r.expires.Some? && now < r.expires.value
  }

  /** The evidence an answer leaves: reusable for one time to live, where it allows and may be reused at all. */
  function Recorded(id: nat, q: Query, role: Role, at: int, ttl: nat): Row
    requires q.principal.User?
  {
    var allowed := Rank(role) >= Least(q.capability);
    Row(id, "user:" + q.principal.userId, q.repo, q.capability, allowed, at,
        if allowed && q.capability in {RepositoryRead, ArtifactRead, PolicyRead, WorkflowStart}
        then Some(at + 1000 * ttl) else None)
  }

  lemma RecordedIs(id: nat, q: Query, role: Role, at: int, ttl: nat)
    requires q.principal.User?
    ensures RowFor(id, q, role, at, ttl) == Recorded(id, q, role, at, ttl)
  {
    hide Floor, FreshRequired, Rank, Least;
    FloorIsLeastRank(role, q.capability);
    FreshIsPrivileged(q);
  }

  /** What a call decides, case by case, and the evidence after it. */
  ghost predicate Decided(id: nat, q: Query, link: Option<Link>, rows: seq<Row>, answer: Option<Role>, now: int,
                          later: int, ttl: nat, d: Decision, rows': seq<Row>)
  {
    var linked := link == Some(Active) || link == Some(Degraded);
    var cached := MayReuse(q) && exists i | 0 <= i < |rows| :: Serves(rows[i], q, now);
    var asks := linked && q.principal.User? && !cached;
    && (d == Deny(OutOfScope) <==> !InScope(q))
    && (d.RepositoryForbidden? <==> InScope(q) && (link.None? || link == Some(Disconnected)))
    && (d == Deny(LinkagePending) <==> InScope(q) && link == Some(Pending))
    && (d.ProviderUnavailable? <==> asks && answer.None?)
    && (d == Deny(BelowFloor) <==> asks && answer.Some? && Rank(answer.value) < Least(q.capability))
    && (d.Allow? <==> linked && InScope(q)
                      && (q.principal.System? || cached
                          || (answer.Some? && Rank(answer.value) >= Least(q.capability))))
    && rows' == (if d.Allow? && q.principal.System?
                 then rows + [Row(id, "system:" + q.principal.serviceId, q.repo, q.capability, true, now, None)]
                 else if asks && answer.Some? then rows + [Recorded(id, q, answer.value, later, ttl)]
                 else rows)
  }

  /** How a call has ended. */
  function Ended(call: Call): Option<Decision> {
    match call
    case Allowed(_, _) => Some(Allow)
    case Denied(_, why) => Some(Deny(why))
    case Forbidden(_) => Some(RepositoryForbidden)
    case Unavailable(_) => Some(ProviderUnavailable)
    case _ => None
  }

  /** A call that is let run from its start to its end. */
  function Alone(sys: Sys, id: nat, q: Query, answer: Option<Role>): Sys {
    var s1 := Next(Next(sys, Begin(id, q)), Do(id, answer));
    Next(Next(Next(s1, Do(id, answer)), Do(id, answer)), Do(id, answer))
  }

  /** The call starts: it ends at the gate, or goes on to evidence or to the provider. */
  lemma StartDoes(sys: Sys, id: nat, q: Query, answer: Option<Role>)
    requires id !in sys.calls
    ensures var s := Next(Next(sys, Begin(id, q)), Do(id, answer));
            && id in s.calls && s.clock == sys.clock && s.ttl == sys.ttl
            && (q.principal.User? || s.calls[id] != Lookup(q, sys.clock))
            && (s.calls[id], s.rows) ==
               if q.principal.System? && !SystemAllowed(q) then (Denied(q, OutOfScope), sys.rows)
               else if q.repo !in sys.links || sys.links[q.repo] == Disconnected then (Forbidden(q), sys.rows)
               else if sys.links[q.repo] == Pending then (Denied(q, LinkagePending), sys.rows)
               else if q.principal.System? then (Allowed(q, sys.clock), sys.rows + [SystemRow(id, q, sys.clock)])
               else if NeedsFresh(q) then (Fetch(q), sys.rows) else (Lookup(q, sys.clock), sys.rows)
  {
    hide SystemAllowed, NeedsFresh, FirstMatch, RowFor;
  }

  lemma EndedStays(sys: Sys, id: nat, answer: Option<Role>)
    requires id in sys.calls && Ended(sys.calls[id]).Some?
    ensures Next(sys, Do(id, answer)) == sys
  {
  }

  lemma LookupDoes(sys: Sys, id: nat, q: Query, now: int, answer: Option<Role>)
    requires id in sys.calls && sys.calls[id] == Lookup(q, now)
    ensures var s := Next(sys, Do(id, answer));
            && id in s.calls && s.clock == sys.clock && s.ttl == sys.ttl && s.rows == sys.rows
            && s.calls[id] == if FirstMatch(sys.rows, SubjectKey(q.principal), q.repo, q.capability, now) < |sys.rows|
                              then Allowed(q, now) else Fetch(q)
  {
    hide FirstMatch, SubjectKey;
  }

  lemma FetchDoes(sys: Sys, id: nat, q: Query, answer: Option<Role>)
    requires id in sys.calls && sys.calls[id] == Fetch(q) && q.principal.User?
    ensures var s := Next(Next(sys, Do(id, answer)), Do(id, answer));
            && id in s.calls
            && (s.calls[id], s.rows) ==
               if answer.None? then (Unavailable(q), sys.rows)
               else (if Suffices(answer.value, q.capability) then Allowed(q, sys.clock) else Denied(q, BelowFloor),
                     sys.rows + [Recorded(id, q, answer.value, sys.clock, sys.ttl)])
  {
    hide RowFor, Recorded, Floor, Suffices;
    if answer.Some? {
      FloorIsLeastRank(answer.value, q.capability);
      RecordedIs(id, q, answer.value, sys.clock, sys.ttl);
    }
  }

  /** The steps of a call that nothing disturbs decide as the service does. */
  lemma AloneDecides(sys: Sys, id: nat, q: Query, answer: Option<Role>)
    requires id !in sys.calls
    ensures var sys' := Alone(sys, id, q, answer);
            var link := if q.repo in sys.links then Some(sys.links[q.repo]) else None;
            && id in sys'.calls && Ended(sys'.calls[id]).Some?
            && Decided(id, q, link, sys.rows, answer, sys.clock, sys.clock, sys.ttl, Ended(sys'.calls[id]).value, sys'.rows)
  {
    hide Next, Rank, Least, MayReuse, NeedsFresh, SystemAllowed, InScope, Recorded, Serves, FirstMatch;
    var s1 := Next(Next(sys, Begin(id, q)), Do(id, answer));
    StartDoes(sys, id, q, answer);
    FreshIsPrivileged(q);
    if q.principal.System? { ScopeIsBinding(q); } else { UserInScope(q); CachedServes(sys.rows, q, sys.clock); }
    if Ended(s1.calls[id]).Some? {
      EndedStays(s1, id, answer);
    } else if s1.calls[id].Lookup? {
      LookupDoes(s1, id, q, sys.clock, answer);
      var s2 := Next(s1, Do(id, answer));
      if s2.calls[id].Fetch? { FetchDoes(s2, id, q, answer); } else { EndedStays(s2, id, answer); }
    } else {
      FetchDoes(s1, id, q, answer);
      EndedStays(Next(Next(s1, Do(id, answer)), Do(id, answer)), id, answer);
    }
  }

  lemma UserInScope(q: Query)
    requires q.principal.User?
    ensures InScope(q)
  {
  }

  lemma CachedServes(rows: seq<Row>, q: Query, now: int)
    requires q.principal.User?
    ensures FirstMatch(rows, SubjectKey(q.principal), q.repo, q.capability, now) < |rows| <==>
            exists i | 0 <= i < |rows| :: Serves(rows[i], q, now)
  {
    forall i | 0 <= i < |rows|
      ensures Matches(rows[i], SubjectKey(q.principal), q.repo, q.capability, now) <==> Serves(rows[i], q, now)
    {
    }
  }

  // ---- The service -------------------------------------------------------

  class RepositoryAuthorizationService {
    const evidence: EvidenceStore
    const ttl: nat

    constructor (evidence: EvidenceStore, ttl: nat)
      ensures this.evidence == evidence && this.ttl == ttl
    {
      this.evidence, this.ttl := evidence, ttl;
    }

    /** authorizeSystemActor. */
    method AuthorizeSystemActor(q: Query) returns (allowed: bool)
      requires q.principal.System?
      ensures allowed <==> InScope(q)
    {
      var bound := q.principal.binding;
      match q.capability {
        case WorkflowStart | WorkflowCancel =>
          if q.context.None? || bound.runId.None? || q.context.value.runId.None? { return false; }
          return bound.runId == q.context.value.runId;
        case ApprovalResolve =>
          if q.context.None? || bound.approvalId.None? || q.context.value.approvalId.None? { return false; }
          return bound.approvalId == q.context.value.approvalId;
        case _ => return false;
      }
    }

    /** One call on its own; now and later are its two clock readings, id is the evidence id it draws. */
    method Authorize(id: nat, q: Query, link: Option<Link>, answer: Option<Role>, now: int, later: int) returns (d: Decision)
      modifies evidence
      ensures Decided(id, q, link, old(evidence.rows), answer, now, later, ttl, d, evidence.rows)
    {
      hide Floor, Rank, Least, FreshRequired, InScope, Recorded;
      FreshIsPrivileged(q);
      if q.principal.System? {
        var scoped := AuthorizeSystemActor(q);
        if !scoped { return Deny(OutOfScope); }
      } else {
        UserInScope(q);
      }
      if link.None? || link == Some(Disconnected) { return RepositoryForbidden; }
      if link == Some(Pending) { return Deny(LinkagePending); }
      assert link.value == Active || link.value == Degraded;
      if q.principal.System? {
        evidence.Append(Row(id, SubjectKey(q.principal), q.repo, q.capability, true, now, None));
        return Allow;
      }
      assert q.principal.User?;
      if !q.insist && !FreshRequired(q.capability) {
        var found := evidence.FindFresh(SubjectKey(q.principal), q.repo, q.capability, now);
        if found.Some? { return Allow; }
      }
      if answer.None? { return ProviderUnavailable; }
      var allowed := answer.value in Floor(q.capability);
      FloorIsLeastRank(answer.value, q.capability);
      RecordedIs(id, q, answer.value, later, ttl);
      evidence.Append(Row(id, SubjectKey(q.principal), q.repo, q.capability, allowed, later,
                          if allowed && !FreshRequired(q.capability) then Some(later + 1000 * ttl) else None));
      if !allowed { return Deny(BelowFloor); }
      return Allow;
    }
  }
}
