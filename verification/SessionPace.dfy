/**
 * How slow and how far apart requests may be (packages/auth/src/service.ts): the bound of
 * module ActiveSessions is the exact one, for every window.
 */
module SessionPace {
  import opened Basics
  import opened Sessions
  import opened ActiveSessions

  // ---- Building runs -----------------------------------------------------

  /** Requests at most gap apart and at most delay long, all checked by end. */
  datatype Pace = Pace(gap: nat, delay: nat, end: int)

  /**
   * A moment: the clock, the stored session, and what is known of the calls: their ids lie
   * below next, writes still to come are of checks from oldest on and of records of that
   * version, and a request that has read but was not checked yet read at reader.
   */
  datatype Moment = Moment(now: int, s: Session, next: nat, oldest: int, version: nat, reader: Option<int>)

  predicate CallFits(call: Call, token: string, m: Moment) {
    && (Writing(call, token) ==> m.oldest <= call.now && call.record.version == m.version)
    && (call.ResolveCheck? && call.token == token ==> m.reader == Some(call.since))
  }

  predicate Fits(sys: Sys, p: Policy, token: string, m: Moment) {
    && sys.policy == p && sys.clock == m.now && token in sys.sessions && sys.sessions[token] == m.s
    && forall id | id in sys.calls :: id < m.next && CallFits(sys.calls[id], token, m)
  }

  /** Nothing known of lasts too long. */
  predicate InTime(m: Moment, delay: nat) {
    m.now <= m.oldest + delay && (m.reader.Some? ==> m.now <= m.reader.value + delay)
  }

  predicate OnPace(p: Policy, run: seq<Step>, token: string, pace: Pace, last: int) {
    && Timely(p, 0, run, token, pace.delay)
    && var times := CheckTimes(p, 0, run, token);
       EachWithin(0, times, pace.gap) && UpTo(times, pace.end) && LastOf(0, times) == last
  }

  lemma FitsPrompt(sys: Sys, p: Policy, token: string, m: Moment, delay: nat)
    requires Fits(sys, p, token, m) && InTime(m, delay)
    ensures Prompt(sys, token, delay)
  {
  }

  /** One more step of a timely run. */
  lemma Grow(p: Policy, run: seq<Step>, step: Step, token: string, pace: Pace, last: int)
    requires OnPace(p, run, token, pace, last) && KeepsWriting(AfterRun(p, 0, run), step, token)
    requires Prompt(Next(AfterRun(p, 0, run), step), token, pace.delay)
    requires IsCheck(AfterRun(p, 0, run), step, token) ==>
               AfterRun(p, 0, run).clock <= last + pace.gap && AfterRun(p, 0, run).clock <= pace.end
    ensures AfterRun(p, 0, run + [step]) == Next(AfterRun(p, 0, run), step)
    ensures OnPace(p, run + [step], token, pace,
                   if IsCheck(AfterRun(p, 0, run), step, token) then AfterRun(p, 0, run).clock else last)
  {
    hide Next, Prompt, KeepsWriting, IsCheck;
    var sys, times := AfterRun(p, 0, run), CheckTimes(p, 0, run, token);
    assert (run + [step])[..|run|] == run;
    if IsCheck(sys, step, token) {
      assert CheckTimes(p, 0, run + [step], token) == times + [sys.clock];
      PacedSnoc(times, sys.clock, pace.gap);
    } else {
      assert CheckTimes(p, 0, run + [step], token) == times + [] == times;
    }
  }

  lemma PacedSnoc(times: seq<int>, t: int, gap: nat)
    requires EachWithin(0, times, gap) && t <= LastOf(0, times) + gap
    ensures EachWithin(0, times + [t], gap) && LastOf(0, times + [t]) == t
  {
    assert (times + [t])[..|times|] == times;
  }

  /** A request arrives and reads its record. */
  lemma Read(p: Policy, run: seq<Step>, token: string, pace: Pace, m: Moment, last: int, at: int) returns (run': seq<Step>)
    requires OnPace(p, run, token, pace, last) && Fits(AfterRun(p, 0, run), p, token, m) && |token| >= MIN_TOKEN
    requires m.now <= at && InTime(m.(now := at), pace.delay)
    ensures OnPace(p, run', token, pace, last)
    ensures var sys, sys' := AfterRun(p, 0, run), AfterRun(p, 0, run');
            && sys'.policy == p && sys'.clock == at && sys'.sessions == sys.sessions && m.next in sys'.calls
            && sys'.calls == sys.calls[m.next := sys'.calls[m.next]]
            && sys'.calls[m.next].ResolveCheck? && sys'.calls[m.next].token == token
            && sys'.calls[m.next].record == m.s && sys'.calls[m.next].since == at
  {
    hide OnPace, AfterRun, InTime, Prompt;
    var sys := AfterRun(p, 0, run);
    var ticked := Next(sys, Tick(at));
    var arrived := Next(ticked, Resolve(m.next, token));
    var found := Next(arrived, Do(m.next, None, ""));
    LaterFits(sys, ticked, p, token, m, at);
    FitsPrompt(ticked, p, token, m.(now := at), pace.delay);
    ArrivedPrompt(ticked, arrived, m.next, token, pace.delay);
    ArrivedPrompt(arrived, found, m.next, token, pace.delay);
    Grow(p, run, Tick(at), token, pace, last);
    var r1 := run + [Tick(at)];
    Grow(p, r1, Resolve(m.next, token), token, pace, last);
    var r2 := r1 + [Resolve(m.next, token)];
    Grow(p, r2, Do(m.next, None, ""), token, pace, last);
    run' := r2 + [Do(m.next, None, "")];
  }

  lemma LaterFits(sys: Sys, sys': Sys, p: Policy, token: string, m: Moment, at: int)
    requires Fits(sys, p, token, m) && m.now <= at && sys' == Next(sys, Tick(at))
    ensures Fits(sys', p, token, m.(now := at)) && sys'.calls == sys.calls && sys'.sessions == sys.sessions
  {
    hide Writing;
  }

  /** A call that has just come or just read takes no time. */
  lemma ArrivedPrompt(sys: Sys, sys': Sys, id: nat, token: string, delay: nat)
    requires Prompt(sys, token, delay) && id in sys'.calls && sys'.clock == sys.clock
    requires sys'.calls == sys.calls[id := sys'.calls[id]] && !Writing(sys'.calls[id], token)
    requires sys'.calls[id].ResolveCheck? ==> sys.clock <= sys'.calls[id].since + delay
    ensures Prompt(sys', token, delay)
  {
  }

  /** The session was seen within half its window: a check asks for no write. */
  predicate TooSoon(s: Session, at: int) { 2 * (at - s.lastSeen) <= WindowOf(s) }

  /** A whole request up to its check, which asks for a write if the session was not seen for long. */
  lemma Check(p: Policy, run: seq<Step>, token: string, pace: Pace, m: Moment, at: int) returns (run': seq<Step>)
    requires OnPace(p, run, token, pace, m.now) && Fits(AfterRun(p, 0, run), p, token, m) && |token| >= MIN_TOKEN
    requires m.now <= at <= m.now + pace.gap && at <= pace.end && InTime(m.(now := at), pace.delay)
    requires m.oldest <= at || TooSoon(m.s, at)
    requires !Dead(m.s, at) && m.s.version == m.version
    ensures OnPace(p, run', token, pace, at)
    ensures var sys, sys', m' := AfterRun(p, 0, run), AfterRun(p, 0, run'), m.(now := at, next := m.next + 1);
            && Fits(sys', p, token, m') && m.next in sys'.calls
            && (forall id | id in sys.calls :: id in sys'.calls && sys'.calls[id] == sys.calls[id])
            && (WantsTouch(m.s, at) ==> Writing(sys'.calls[m.next], token) && sys'.calls[m.next].now == at
                                        && sys'.calls[m.next].record == m.s)
  {
    hide OnPace, AfterRun, InTime, Prompt, Dead, WantsTouch;
    var sys := AfterRun(p, 0, run);
    var read := Read(p, run, token, pace, m, m.now, at);
    var before, step := AfterRun(p, 0, read), Do(m.next, None, "");
    var m' := m.(now := at, next := m.next + 1);
    CheckFits(sys, before, p, token, m, at);
    LaterInTime(m, at, pace.delay);
    FitsPrompt(Next(before, step), p, token, m', pace.delay);
    Grow(p, read, step, token, pace, m.now);
    run' := read + [step];
  }

  lemma LaterInTime(m: Moment, at: int, delay: nat)
    requires InTime(m.(now := at), delay)
    ensures InTime(m.(now := at, next := m.next + 1), delay)
  {
  }

  lemma CheckFits(sys: Sys, before: Sys, p: Policy, token: string, m: Moment, at: int)
    requires Fits(sys, p, token, m) && !Dead(m.s, at) && (m.oldest <= at || TooSoon(m.s, at)) && m.s.version == m.version
    requires before.policy == p && before.clock == at && before.sessions == sys.sessions && m.next in before.calls
    requires before.calls == sys.calls[m.next := before.calls[m.next]]
    requires var call := before.calls[m.next]; call.ResolveCheck? && call.token == token && call.record == m.s
    ensures var after := Next(before, Do(m.next, None, "")); var m' := m.(now := at, next := m.next + 1);
            && Fits(after, p, token, m') && m.next in after.calls
            && (forall id | id in sys.calls :: id in after.calls && after.calls[id] == sys.calls[id])
            && (WantsTouch(m.s, at) ==> Writing(after.calls[m.next], token) && after.calls[m.next].now == at
                                        && after.calls[m.next].record == m.s)
  {
    hide Dead;
  }

  /** Requests at every moment of a stretch. */
  lemma {:induction false} Checks(p: Policy, run: seq<Step>, token: string, pace: Pace, m: Moment, n: nat)
    returns (run': seq<Step>)
    requires OnPace(p, run, token, pace, m.now) && Fits(AfterRun(p, 0, run), p, token, m) && |token| >= MIN_TOKEN
    requires pace.gap >= 1 && m.now + n <= pace.end
    requires m.oldest <= m.now + 1 || TooSoon(m.s, m.now + n)
    requires InTime(m.(now := m.now + n), pace.delay) && m.s.version == m.version
    requires m.s.revoked.None? && m.now + n <= m.s.idle && m.now + n <= m.s.absolute
    ensures OnPace(p, run', token, pace, m.now + n)
    ensures Fits(AfterRun(p, 0, run'), p, token, m.(now := m.now + n, next := m.next + n))
    ensures forall id | id in AfterRun(p, 0, run).calls ::
              id in AfterRun(p, 0, run').calls && AfterRun(p, 0, run').calls[id] == AfterRun(p, 0, run).calls[id]
    decreases n
  {
    hide OnPace, AfterRun, Fits;
    run' := run;
    if n > 0 {
      var first := Check(p, run, token, pace, m, m.now + 1);
      run' := Checks(p, first, token, pace, m.(now := m.now + 1, next := m.next + 1), n - 1);
    }
  }

  // ---- Writing -----------------------------------------------------------

  function Seen(s: Session, at: int): Session {
    s.(lastSeen := at, idle := at + WindowOf(s), version := s.version + 1)
  }

  /** The write of a check of the session as it is stored. */
  lemma Write(p: Policy, run: seq<Step>, token: string, pace: Pace, m: Moment, id: nat) returns (run': seq<Step>)
    requires OnPace(p, run, token, pace, m.now) && Fits(AfterRun(p, 0, run), p, token, m) && InTime(m, pace.delay)
    requires id in AfterRun(p, 0, run).calls && Writing(AfterRun(p, 0, run).calls[id], token)
    requires AfterRun(p, 0, run).calls[id].record == m.s
    ensures OnPace(p, run', token, pace, m.now)
    ensures var sys, sys' := AfterRun(p, 0, run), AfterRun(p, 0, run');
            && Fits(sys', p, token, m.(s := Seen(m.s, sys.calls[id].now)))
            && (forall other | other in sys.calls && other != id :: other in sys'.calls && sys'.calls[other] == sys.calls[other])
  {
    hide OnPace, AfterRun, Prompt, InTime;
    var sys, step := AfterRun(p, 0, run), Do(id, None, "");
    WriteFits(sys, p, token, m, id);
    SameInTime(m, Seen(m.s, sys.calls[id].now), pace.delay);
    FitsPrompt(Next(sys, step), p, token, m.(s := Seen(m.s, sys.calls[id].now)), pace.delay);
    Grow(p, run, step, token, pace, m.now);
    run' := run + [step];
  }

  lemma SameInTime(m: Moment, s: Session, delay: nat)
    requires InTime(m, delay)
    ensures InTime(m.(s := s), delay)
  {
  }

  lemma WriteFits(sys: Sys, p: Policy, token: string, m: Moment, id: nat)
    requires Fits(sys, p, token, m) && id in sys.calls && Writing(sys.calls[id], token) && sys.calls[id].record == m.s
    ensures var sys' := Next(sys, Do(id, None, ""));
            && Fits(sys', p, token, m.(s := Seen(m.s, sys.calls[id].now)))
            && (forall other | other in sys.calls && other != id :: other in sys'.calls && sys'.calls[other] == sys.calls[other])
  {
  }

  function ToWrite(sys: Sys, token: string): set<nat> { set id | id in sys.calls && Writing(sys.calls[id], token) }

  /** The writes that come too late all lose, and leave the session as it is. */
  lemma {:induction false} LoseAll(p: Policy, run: seq<Step>, token: string, pace: Pace, m: Moment) returns (run': seq<Step>)
    requires OnPace(p, run, token, pace, m.now) && Fits(AfterRun(p, 0, run), p, token, m) && InTime(m, pace.delay)
    requires m.s.version != m.version
    ensures OnPace(p, run', token, pace, m.now) && Fits(AfterRun(p, 0, run'), p, token, m)
    ensures ToWrite(AfterRun(p, 0, run'), token) == {}
    ensures var sys, sys' := AfterRun(p, 0, run), AfterRun(p, 0, run');
            forall id | id in sys.calls && !Writing(sys.calls[id], token) :: id in sys'.calls && sys'.calls[id] == sys.calls[id]
    decreases |ToWrite(AfterRun(p, 0, run), token)|
  {
    hide OnPace, AfterRun, Prompt, InTime, Fits;
    var sys := AfterRun(p, 0, run);
    run' := run;
    if ToWrite(sys, token) != {} {
      var id :| id in ToWrite(sys, token);
      var step := Do(id, None, "");
      LoseFits(sys, p, token, m, id);
      FitsPrompt(Next(sys, step), p, token, m, pace.delay);
      Grow(p, run, step, token, pace, m.now);
      var lost := run + [step];
      run' := LoseAll(p, lost, token, pace, m);
    }
  }

  lemma LoseFits(sys: Sys, p: Policy, token: string, m: Moment, id: nat)
    requires Fits(sys, p, token, m) && m.s.version != m.version && id in ToWrite(sys, token)
    ensures var sys' := Next(sys, Do(id, None, ""));
            && Fits(sys', p, token, m) && |ToWrite(sys', token)| < |ToWrite(sys, token)|
            && !IsCheck(sys, Do(id, None, ""), token)
            && (forall other | other in sys.calls && other != id :: other in sys'.calls && sys'.calls[other] == sys.calls[other])
  {
    var sys' := Next(sys, Do(id, None, ""));
    assert sys'.calls[id].ResolveReread? && sys'.calls == sys.calls[id := sys'.calls[id]];
    assert ToWrite(sys', token) == ToWrite(sys, token) - {id};
  }

  lemma NothingToWrite(sys: Sys, p: Policy, token: string, m: Moment, oldest: int, version: nat)
    requires Fits(sys, p, token, m) && ToWrite(sys, token) == {}
    ensures Fits(sys, p, token, m.(oldest := oldest, version := version))
  {
    forall id | id in sys.calls ensures !Writing(sys.calls[id], token) {
      assert id !in ToWrite(sys, token);
    }
  }

  // ---- The start ---------------------------------------------------------

  lemma StartOnPace(p: Policy, token: string, pace: Pace)
    ensures OnPace(p, [], token, pace, 0) && AfterRun(p, 0, []) == Start(p, 0)
  {
  }

  lemma NoRequests(sys: Sys, token: string, delay: nat)
    requires forall id | id in sys.calls :: !sys.calls[id].ResolveCheck? && !sys.calls[id].ResolveTouch?
    ensures Prompt(sys, token, delay)
  {
  }

  /** A login at time 0. */
  lemma LoggedIn(p: Policy, token: string, user: string, pace: Pace) returns (run: seq<Step>)
    ensures OnPace(p, run, token, pace, 0)
    ensures forall oldest: int, version: nat ::
              Fits(AfterRun(p, 0, run), p, token, Moment(0, NewSession(p, user, 0), 1, oldest, version, None))
  {
    hide OnPace, AfterRun, Prompt;
    StartOnPace(p, token, pace);
    var s1 := Next(Start(p, 0), StartLogin("s"));
    NoRequests(s1, token, pace.delay);
    Grow(p, [], StartLogin("s"), token, pace, 0);
    var r1 := [] + [StartLogin("s")];
    var s2 := Next(s1, Login(0, "s"));
    NoRequests(s2, token, pace.delay);
    Grow(p, r1, Login(0, "s"), token, pace, 0);
    var r2 := r1 + [Login(0, "s")];
    var s3 := Next(s2, Do(0, None, ""));
    NoRequests(s3, token, pace.delay);
    Grow(p, r2, Do(0, None, ""), token, pace, 0);
    var r3 := r2 + [Do(0, None, "")];
    var s4 := Next(s3, Do(0, None, ""));
    NoRequests(s4, token, pace.delay);
    Grow(p, r3, Do(0, None, ""), token, pace, 0);
    var r4 := r3 + [Do(0, None, "")];
    var s5 := Next(s4, Do(0, Some(user), token));
    NoRequests(s5, token, pace.delay);
    Grow(p, r4, Do(0, Some(user), token), token, pace, 0);
    run := r4 + [Do(0, Some(user), token)];
    assert s5 == Sys(p, 0, map[token := NewSession(p, user, 0)], map["s" := Txn(LOGIN_TTL_MS, Some(0), 1)],
                     map[0 := Ended(Outcome.LoggedIn("s", token))], 5);
  }

  // ---- Turned away -------------------------------------------------------

  /** A check of a record that has run out, in a run that is steady so far and stays so. */
  lemma TurnedAway(p: Policy, run: seq<Step>, token: string, pace: Pace, last: int, id: nat)
    requires OnPace(p, run, token, pace, last)
    requires var sys := AfterRun(p, 0, run);
             && id in sys.calls && sys.calls[id].ResolveCheck? && sys.calls[id].token == token
             && Dead(sys.calls[id].record, sys.clock) && Open(sys, token) && Prompt(sys, token, pace.delay)
             && sys.clock <= last + pace.gap && sys.clock <= pace.end
             && sys.sessions[token].createdAt == 0 && sys.sessions[token].absolute == pace.end + p.window
    ensures !ServedNext(p, 0, run, token, pace.gap, pace.delay, id, None, "")
  {
    hide AfterRun, Dead, CheckTimes, Timely;
    var sys, step := AfterRun(p, 0, run), Do(id, None, "");
    var sys' := Next(sys, step);
    assert sys'.calls == sys.calls[id := Ended(NoPrincipal)] && sys'.sessions == sys.sessions && sys'.clock == sys.clock;
    ArrivedPrompt(sys, sys', id, token, pace.delay);
    Grow(p, run, step, token, pace, last);
  }

  /** Half the window, in which a session is not touched, and the rest. */
  function Half(window: nat): nat { window / 2 }
  function Rest(window: nat): nat { window - window / 2 }

  /** Requests at every moment until half the window has passed: none touches the session. */
  lemma Untouched(p: Policy, token: string, user: string, pace: Pace, oldest: int) returns (run: seq<Step>)
    requires pace.gap >= 1 && |token| >= MIN_TOKEN && p.window / 2 <= pace.end && p.window <= p.lifetime
    requires p.window / 2 < oldest
    ensures OnPace(p, run, token, pace, Half(p.window))
    ensures Fits(AfterRun(p, 0, run), p, token,
                 Moment(Half(p.window), NewSession(p, user, 0), 1 + Half(p.window), oldest, 0, None))
  {
    hide OnPace, AfterRun, Fits;
    var start := LoggedIn(p, token, user, pace);
    var m := Moment(0, NewSession(p, user, 0), 1, oldest, 0, None);
    FirstChecks(p, start, token, pace, m);
    run := Checks(p, start, token, pace, m, Half(p.window));
  }

  lemma FirstChecks(p: Policy, run: seq<Step>, token: string, pace: Pace, m: Moment)
    requires m.oldest > p.window / 2 && m.reader.None?
    ensures InTime(m.(now := Half(p.window)), pace.delay)
  {
  }

  /** A last check of the session right after, which comes too late. */
  lemma LateCheck(p: Policy, run: seq<Step>, token: string, pace: Pace, m: Moment, at: int) returns (late: seq<Step>)
    requires OnPace(p, run, token, pace, m.now) && Fits(AfterRun(p, 0, run), p, token, m) && |token| >= MIN_TOKEN
    requires m.now <= at <= m.now + pace.gap && at <= pace.end && InTime(m.(now := at), pace.delay)
    requires m.s.revoked.None? && m.s.idle < at && m.s.createdAt == 0 && m.s.absolute == pace.end + p.window
    ensures !ServedNext(p, 0, late, token, pace.gap, pace.delay, m.next, None, "")
  {
    hide OnPace, AfterRun, InTime, Prompt;
    late := Read(p, run, token, pace, m, m.now, at);
    OnPacePrompt(p, late, token, pace, m.now);
    TurnedAway(p, late, token, pace, m.now, m.next);
  }

  lemma OnPacePrompt(p: Policy, run: seq<Step>, token: string, pace: Pace, last: int)
    requires OnPace(p, run, token, pace, last)
    ensures Prompt(AfterRun(p, 0, run), token, pace.delay)
  {
    hide Prompt;
  }

  /** A check of a request that read its record before. */
  lemma SlowCheck(p: Policy, run: seq<Step>, token: string, pace: Pace, m: Moment, id: nat, at: int)
    returns (late: seq<Step>)
    requires OnPace(p, run, token, pace, m.now) && Fits(AfterRun(p, 0, run), p, token, m)
    requires m.now <= at <= m.now + pace.gap && at <= pace.end && InTime(m.(now := at), pace.delay)
    requires m.s.revoked.None? && m.s.createdAt == 0 && m.s.absolute == pace.end + p.window
    requires id in AfterRun(p, 0, run).calls
    requires var call := AfterRun(p, 0, run).calls[id];
             call.ResolveCheck? && call.token == token && call.record.idle < at
    ensures !ServedNext(p, 0, late, token, pace.gap, pace.delay, id, None, "")
  {
    hide OnPace, AfterRun, InTime, Prompt;
    var sys, step := AfterRun(p, 0, run), Tick(at);
    LaterFits(sys, Next(sys, step), p, token, m, at);
    FitsPrompt(Next(sys, step), p, token, m.(now := at), pace.delay);
    Grow(p, run, step, token, pace, m.now);
    late := run + [step];
    TurnedAway(p, late, token, pace, m.now, id);
  }

  // ---- The slowest run ---------------------------------------------------

  /** How long the slowest requests take in it. */
  function Slow(window: nat, gap: nat): int { (Rest(window) - gap) / 2 + 1 }

  lemma SlowMeans(window: nat, gap: nat, delay: nat)
    requires 1 <= gap < Rest(window) && !Bears(window, gap, delay)
    ensures var d, h := Slow(window, gap), Half(window);
            && 1 <= d <= delay && h + gap + d <= window < h + gap + 2 * d
            && h <= window - h && h + gap + 2 * d <= window + 2 && 2 * (h + gap) > window
  {
  }

  /** After a write was held back for as long as it may be, another request has just read the session. */
  function HeldMoment(p: Policy, user: string, gap: nat): Moment {
    var h, d := Half(p.window), Max(0, Slow(p.window, gap));
    Moment(h + gap + d, NewSession(p, user, 0), 3 + h + d, h + gap, 0, Some(h + gap + d))
  }

  predicate Reading(sys: Sys, token: string, id: nat, s: Session) {
    id in sys.calls && sys.calls[id].ResolveCheck? && sys.calls[id].token == token && sys.calls[id].record == s
  }

  predicate Holding(sys: Sys, token: string, id: nat, s: Session, at: int) {
    id in sys.calls && Writing(sys.calls[id], token) && sys.calls[id].record == s && sys.calls[id].now == at
  }

  lemma HeldBack(p: Policy, token: string, user: string, pace: Pace) returns (run: seq<Step>)
    requires 1 <= pace.gap < Rest(p.window) && !Bears(p.window, pace.gap, pace.delay)
    requires p.lifetime > 2 * p.window + 2 && |token| >= MIN_TOKEN && pace.end == p.lifetime - p.window
    ensures var m := HeldMoment(p, user, pace.gap); var sys := AfterRun(p, 0, run);
            && OnPace(p, run, token, pace, m.now) && Fits(sys, p, token, m)
            && Holding(sys, token, 1 + Half(p.window), m.s, m.oldest) && Reading(sys, token, m.next - 1, m.s)
  {
    hide OnPace, AfterRun, Fits, ServedNext, InTime, Slow, Half, Rest;
    var h, d, s := Half(p.window), Slow(p.window, pace.gap), NewSession(p, user, 0);
    HalfIs(p.window);
    SlowMeans(p.window, pace.gap, pace.delay);
    // nobody touches the session up to half the window
    var r1 := Untouched(p, token, user, pace, h + pace.gap);
    var m1 := Moment(h, s, 1 + h, h + pace.gap, 0, None);
    // one gap later a request is let in and holds its write back, as do those after it
    SoonInTime(m1, h + pace.gap, pace.delay);
    var r2 := Check(p, r1, token, pace, m1, h + pace.gap);
    var m2 := m1.(now := h + pace.gap, next := 2 + h);
    SoonInTime(m2, h + pace.gap + d, pace.delay);
    var r3 := Checks(p, r2, token, pace, m2, d);
    var m3 := m2.(now := h + pace.gap + d, next := 2 + h + d);
    SoonInTime(m3, m3.now, pace.delay);
    run := Read(p, r3, token, pace, m3, m3.now, m3.now);
    ReadFits(AfterRun(p, 0, r3), AfterRun(p, 0, run), p, token, m3);
  }

  /** Where gaps are short: writes are held back until another request has read, and that one is slow too. */
  lemma SlowRun(p: Policy, token: string, user: string, gap: nat, delay: nat) returns (run: seq<Step>, id: nat)
    requires 1 <= gap < Rest(p.window) && !Bears(p.window, gap, delay)
    requires p.lifetime > 2 * p.window + 2 && |token| >= MIN_TOKEN
    ensures !ServedNext(p, 0, run, token, gap, delay, id, None, "")
  {
    hide OnPace, AfterRun, Fits, ServedNext, InTime, Slow, Half, Rest;
    var pace, h, d := Pace(gap, delay, p.lifetime - p.window), Half(p.window), Slow(p.window, gap);
    HalfIs(p.window);
    SlowMeans(p.window, gap, delay);
    var r4 := HeldBack(p, token, user, pace);
    var m4 := HeldMoment(p, user, gap);
    id := m4.next - 1;
    ReaderInTime(m4, m4.now, delay);
    // now the write lands, and those after it lose
    var r5 := Write(p, r4, token, pace, m4, 1 + h);
    var m5 := m4.(s := Seen(m4.s, m4.oldest));
    SameInTime(m4, m5.s, delay);
    var r6 := LoseAll(p, r5, token, pace, m5);
    NothingToWrite(AfterRun(p, 0, r6), p, token, m5, m5.now + 1, 1);
    // requests go on while the slow one waits for its check
    var m6 := m5.(oldest := m5.now + 1, version := 1);
    ReaderInTime(m6, m5.now + d, delay);
    var r7 := Checks(p, r6, token, pace, m6, d - 1);
    var m7 := m6.(now := m6.now + d - 1, next := m6.next + d - 1);
    ReaderInTime(m7, m5.now + d, delay);
    run := SlowCheck(p, r7, token, pace, m7, id, m5.now + d);
  }

  lemma HalfIs(window: nat)
    ensures Half(window) == window / 2 && Rest(window) == window - window / 2
  {
  }

  lemma SoonInTime(m: Moment, at: int, delay: nat)
    requires m.reader.None? && at <= m.oldest + delay
    ensures InTime(m.(now := at), delay)
  {
  }

  lemma ReaderInTime(m: Moment, at: int, delay: nat)
    requires m.reader.Some? && at <= m.oldest + delay && at <= m.reader.value + delay
    ensures InTime(m.(now := at), delay)
    ensures m.now <= at ==> InTime(m, delay) && InTime(m.(now := at - 1), delay)
  {
  }

  lemma ReadFits(sys: Sys, sys': Sys, p: Policy, token: string, m: Moment)
    requires Fits(sys, p, token, m) && m.reader.None? && sys'.policy == p && sys'.clock == m.now
    requires sys'.sessions == sys.sessions && m.next in sys'.calls
    requires sys'.calls == sys.calls[m.next := sys'.calls[m.next]]
    requires sys'.calls[m.next].ResolveCheck? && sys'.calls[m.next].since == m.now
    ensures Fits(sys', p, token, m.(next := m.next + 1, reader := Some(m.now)))
  {
  }

  /** Where gaps are long: a request comes too late, after at most one write was held back. */
  lemma LateRun(p: Policy, token: string, user: string, gap: nat, delay: nat) returns (run: seq<Step>, id: nat)
    requires Rest(p.window) <= gap && gap >= 1 && !Bears(p.window, gap, delay)
    requires p.lifetime > 2 * p.window + 2 && |token| >= MIN_TOKEN
    ensures !ServedNext(p, 0, run, token, gap, delay, id, None, "")
  {
    hide OnPace, AfterRun, Fits, ServedNext, InTime, Half, Rest;
    var pace, h := Pace(gap, delay, p.lifetime - p.window), Half(p.window);
    HalfIs(p.window);
    LateMeans(p.window, gap, delay);
    var r1 := Untouched(p, token, user, pace, p.window + 1);
    var m1 := Moment(h, NewSession(p, user, 0), 1 + h, p.window + 1, 0, None);
    SoonInTime(m1, p.window + 1, delay);
    if gap > Rest(p.window) {
      run := LateCheck(p, r1, token, pace, m1, p.window + 1);
      id := m1.next;
    } else {
      EarlierFits(AfterRun(p, 0, r1), p, token, m1, p.window);
      var m2 := m1.(oldest := p.window);
      SoonInTime(m2, p.window, delay);
      var r2 := Check(p, r1, token, pace, m2, p.window);
      var m3 := m2.(now := p.window, next := m2.next + 1);
      SoonInTime(m3, p.window + 1, delay);
      run := LateCheck(p, r2, token, pace, m3, p.window + 1);
      id := m3.next;
    }
  }

  lemma LateMeans(window: nat, gap: nat, delay: nat)
    requires Rest(window) <= gap && gap >= 1 && !Bears(window, gap, delay)
    ensures gap == Rest(window) ==> delay >= 1 && Half(window) < window
    ensures Half(window) <= window == Half(window) + Rest(window)
  {
  }

  lemma EarlierFits(sys: Sys, p: Policy, token: string, m: Moment, oldest: int)
    requires Fits(sys, p, token, m) && oldest <= m.oldest
    ensures Fits(sys, p, token, m.(oldest := oldest))
  {
  }

  // ---- The exact bound ---------------------------------------------------

  /** Every request for an open session is served, in every run this steady. */
  ghost predicate AlwaysServed(p: Policy, gap: nat, delay: nat) {
    forall clock: int, run: seq<Step>, token: string, id: nat, user: Option<string>, minted: string ::
      ServedNext(p, clock, run, token, gap, delay, id, user, minted)
  }

  /**
   * With checks at most gap apart and requests of at most delay, every request is served
   * in every run exactly when 2 gap + 4 delay is at most one more than the window. For an
   * even window that is the window itself; an odd one bears one unit more.
   */
  lemma ServedExactlyWhen(p: Policy, gap: nat, delay: nat)
    requires gap >= 1 && p.lifetime > 2 * p.window + 2
    ensures AlwaysServed(p, gap, delay) <==> 2 * gap + 4 * delay <= p.window + 1
    ensures p.window % 2 == 0 ==> (AlwaysServed(p, gap, delay) <==> 2 * gap + 4 * delay <= p.window)
  {
    hide ServedNext, Rest;
    if 2 * gap + 4 * delay <= p.window + 1 {
      forall clock: int, run: seq<Step>, token: string, id: nat, user: Option<string>, minted: string
        ensures ServedNext(p, clock, run, token, gap, delay, id, user, minted)
      {
        PromptRequestsServed(p, clock, run, token, gap, delay, id, user, minted);
      }
    } else {
      var token := "aaaaaaaaaaaaaaaaaaaa";
      assert |token| == 20;
      var run, id;
      if gap < Rest(p.window) { run, id := SlowRun(p, token, "u", gap, delay); }
      else { run, id := LateRun(p, token, "u", gap, delay); }
    }
  }
}
