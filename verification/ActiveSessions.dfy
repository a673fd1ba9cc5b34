/**
 * Active users under concurrency (packages/auth/src/service.ts): when requests that may
 * overlap keep a session alive, over every run of the machine of module Sessions.
 */
module ActiveSessions {
  import opened Basics
  import opened Sessions

  /** The step at which a request is checked against the clock. */
  predicate IsCheck(sys: Sys, step: Step, token: string) {
    step.Do? && step.id in sys.calls && sys.calls[step.id].ResolveCheck? && sys.calls[step.id].token == token
  }

  predicate Writing(call: Call, token: string) { call.ResolveTouch? && call.token == token }

  /** When requests for the token were checked. */
  function CheckTimes(p: Policy, clock: int, run: seq<Step>, token: string): seq<int> {
    if run == [] then []
    else
      var before := run[..|run| - 1];
      var sys := AfterRun(p, clock, before);
      CheckTimes(p, clock, before, token) + if IsCheck(sys, run[|run| - 1], token) then [sys.clock] else []
  }

  /** No request for the token stays longer than delay between reading, checking and writing. */
  predicate Prompt(sys: Sys, token: string, delay: nat) {
    forall id | id in sys.calls ::
      && (sys.calls[id].ResolveCheck? && sys.calls[id].token == token ==> sys.clock <= sys.calls[id].since + delay)
      && (Writing(sys.calls[id], token) ==> sys.clock <= sys.calls[id].now + delay)
  }

  predicate KeepsWriting(sys: Sys, step: Step, token: string) {
    step.Crash? && step.id in sys.calls ==> !Writing(sys.calls[step.id], token)
  }

  /** Throughout the run requests are prompt, and none crashes before its write. */
  predicate Timely(p: Policy, clock: int, run: seq<Step>, token: string, delay: nat) {
    Prompt(AfterRun(p, clock, run), token, delay) &&
    (run == [] ||
     (Timely(p, clock, run[..|run| - 1], token, delay)
      && KeepsWriting(AfterRun(p, clock, run[..|run| - 1]), run[|run| - 1], token)))
  }

  function LastOf(from: int, times: seq<int>): int { if times == [] then from else times[|times| - 1] }

  /** From the start on, the next check comes within the gap. */
  predicate EachWithin(from: int, times: seq<int>, gap: nat) {
    times == [] ||
    (EachWithin(from, times[..|times| - 1], gap) && times[|times| - 1] <= LastOf(from, times[..|times| - 1]) + gap)
  }

  /** The window bears checks this far apart and requests this slow. */
  predicate Bears(window: nat, gap: nat, delay: nat) { gap >= 1 && 2 * gap + 4 * delay <= window + 1 }

  /** Requests are prompt, and their checks come within the gap and early enough. */
  predicate Steady(p: Policy, clock: int, run: seq<Step>, token: string, gap: nat, delay: nat) {
    && Timely(p, clock, run, token, delay)
    && var sys := AfterRun(p, clock, run);
       token in sys.sessions ==>
         SteadyTimes(sys.sessions[token], p.window, CheckTimes(p, clock, run, token), gap)
  }

  predicate SteadyTimes(s: Session, window: nat, times: seq<int>, gap: nat) {
    EachWithin(s.createdAt, times, gap) && UpTo(times, s.absolute - window)
  }

  // ---- What holds of a steady session ------------------------------------

  /** The session has been seen at most half a window before that check. */
  predicate Landed(s: Session, time: int) {
    2 * (time - s.lastSeen) <= WindowOf(s) || s.absolute - WindowOf(s) <= time
  }

  predicate TouchPending(sys: Sys, token: string, time: int) {
    exists id :: id in sys.calls && Writing(sys.calls[id], token) && sys.calls[id].now == time
  }

  /** What a call knows is the stored session, or that was seen again since. */
  predicate Current(s: Session, record: Session, since: int, delay: nat) {
    record.revoked.None? && record.lastSeen <= s.lastSeen && (record == s || since - delay <= s.lastSeen)
  }

  predicate CallOnTime(clock: int, s: Session, token: string, times: seq<int>, call: Call, delay: nat) {
    match call
    case ResolveCheck(t, record, _, _, since) =>
      t == token ==>
        && since <= clock && Current(s, record, since, delay)
        && forall i | 0 <= i < |times| :: times[i] < since - delay ==> Landed(record, times[i])
    case ResolveTouch(t, record, now, _, _, since) =>
      t == token ==> since <= now <= since + delay && Current(s, record, since, delay)
    case ResolveReread(t, record, now, _, _, since) =>
      t == token ==> since <= now <= since + delay && since - delay <= s.lastSeen
    case _ => true
  }

  ghost predicate OnTime(sys: Sys, token: string, times: seq<int>, delay: nat) {
    if token !in sys.sessions then times == []
    else
      var s := sys.sessions[token];
      s.revoked.None? ==>
        && (forall i | 0 <= i < |times| :: Landed(s, times[i]) || TouchPending(sys, token, times[i]))
        && (forall id | id in sys.calls :: CallOnTime(sys.clock, s, token, times, sys.calls[id], delay))
  }

  /** A step that leaves the session alone and moves one call, which was not about to write. */
  lemma OnTimeFrame(sys: Sys, sys': Sys, id: nat, token: string, times: seq<int>, delay: nat)
    requires OnTime(sys, token, times, delay) && token in sys.sessions && sys.clock <= sys'.clock
    requires token in sys'.sessions && sys'.sessions[token] == sys.sessions[token]
    requires forall i | i != id :: i in sys'.calls <==> i in sys.calls
    requires forall i | i in sys.calls && i != id :: sys'.calls[i] == sys.calls[i]
    requires id in sys.calls ==> !Writing(sys.calls[id], token) || (id in sys'.calls && sys'.calls[id] == sys.calls[id])
    requires id in sys'.calls ==>
               CallOnTime(sys'.clock, sys.sessions[token], token, times, sys'.calls[id], delay)
               || (id in sys.calls && sys'.calls[id] == sys.calls[id])
    ensures OnTime(sys', token, times, delay)
  {
    hide Landed, Current, Writing;
    var s := sys.sessions[token];
    if s.revoked.None? {
      forall i | 0 <= i < |times| && !Landed(s, times[i]) ensures TouchPending(sys', token, times[i]) {
        PendingStays(sys, sys', id, token, times[i]);
      }
      forall i | i in sys'.calls ensures CallOnTime(sys'.clock, s, token, times, sys'.calls[i], delay) {
        if i in sys.calls && sys'.calls[i] == sys.calls[i] {
          LaterOnTime(sys.clock, sys'.clock, s, token, times, sys.calls[i], delay);
        }
      }
    }
  }

  lemma LaterOnTime(clock: int, clock': int, s: Session, token: string, times: seq<int>, call: Call, delay: nat)
    requires CallOnTime(clock, s, token, times, call, delay) && clock <= clock'
    ensures CallOnTime(clock', s, token, times, call, delay)
  {
    hide Landed, Current;
  }

  lemma PendingStays(sys: Sys, sys': Sys, id: nat, token: string, time: int)
    requires TouchPending(sys, token, time)
    requires forall i | i in sys.calls && i != id :: i in sys'.calls && sys'.calls[i] == sys.calls[i]
    requires id in sys.calls ==> !Writing(sys.calls[id], token) || (id in sys'.calls && sys'.calls[id] == sys.calls[id])
    ensures TouchPending(sys', token, time)
  {
    var i :| i in sys.calls && Writing(sys.calls[i], token) && sys.calls[i].now == time;
    assert i in sys'.calls && sys'.calls[i] == sys.calls[i];
  }

  // ---- The delicate steps ------------------------------------------------

  /** Reading: every check older than the delay has landed by now. */
  lemma FindOnTime(sys: Sys, token: string, times: seq<int>, delay: nat, i: nat)
    requires OnTime(sys, token, times, delay) && Prompt(sys, token, delay)
    requires token in sys.sessions && sys.sessions[token].revoked.None? && i < |times| && times[i] < sys.clock - delay
    ensures Landed(sys.sessions[token], times[i])
  {
    hide Landed, CallOnTime;
    PendingIsRecent(sys, token, times[i], delay);
  }

  lemma PendingIsRecent(sys: Sys, token: string, time: int, delay: nat)
    requires Prompt(sys, token, delay)
    ensures TouchPending(sys, token, time) ==> sys.clock <= time + delay
  {
  }

  /** Among paced checks, one is old enough to have landed and late enough to matter. */
  lemma {:induction false} Frontier(from: int, times: seq<int>, gap: nat, bound: int, next: int, r: Session)
    requires EachWithin(from, times, gap) && bound <= next <= LastOf(from, times) + gap
    requires from <= r.lastSeen && bound <= r.absolute - WindowOf(r) && 0 <= WindowOf(r)
    requires forall i | 0 <= i < |times| :: times[i] < bound ==> Landed(r, times[i])
    ensures 2 * (bound - r.lastSeen) <= 2 * gap + WindowOf(r)
    decreases |times|
  {
    if times != [] && bound <= times[|times| - 1] {
      var front := times[..|times| - 1];
      assert forall i | 0 <= i < |front| :: front[i] == times[i];
      Frontier(from, front, gap, bound, times[|times| - 1], r);
    }
  }

  /** Checking: a steady request finds its record alive. */
  lemma CheckAlive(sys: Sys, token: string, times: seq<int>, gap: nat, delay: nat, call: Call)
    requires token in sys.sessions && call.ResolveCheck? && call.token == token && CallOk(sys, call)
    requires CallOnTime(sys.clock, sys.sessions[token], token, times, call, delay)
    requires sys.clock <= call.since + delay && Bears(sys.policy.window, gap, delay)
    requires SteadyTimes(sys.sessions[token], sys.policy.window, times + [sys.clock], gap)
    requires sys.sessions[token].createdAt == call.record.createdAt
    ensures !Dead(call.record, sys.clock)
  {
    var r, t := call.record, sys.clock;
    var all := times + [t];
    assert all[..|times|] == times && all[|times|] == t;
    Frontier(r.createdAt, times, gap, call.since - delay, t, r);
  }

  lemma SameBirth(sys: Sys, token: string, record: Session)
    requires Faithful(sys, token, record) && SessionOk(sys, sys.sessions[token])
    ensures record.createdAt == sys.sessions[token].createdAt
  {
  }

  /** After the check the time is on record: landed, or about to be written. */
  lemma CheckOnTime(sys: Sys, sys': Sys, id: nat, token: string, times: seq<int>, gap: nat, delay: nat, user: Option<string>, minted: string)
    requires Inv(sys) && OnTime(sys, token, times, delay) && Prompt(sys, token, delay)
    requires id in sys.calls && sys.calls[id].ResolveCheck? && sys.calls[id].token == token
    requires sys' == Next(sys, Do(id, user, minted)) && Bears(sys.policy.window, gap, delay)
    requires token in sys.sessions && SteadyTimes(sys.sessions[token], sys.policy.window, times + [sys.clock], gap)
    requires sys.sessions[token].revoked.None?
    ensures OnTime(sys', token, times + [sys.clock], delay)
    ensures sys'.calls[id] != Ended(NoPrincipal)
  {
    var s, call, t, times' := sys.sessions[token], sys.calls[id], sys.clock, times + [sys.clock];
    assert CallOk(sys, call) && CallOnTime(t, s, token, times, call, delay);
    SameBirth(sys, token, call.record);
    CheckAlive(sys, token, times, gap, delay, call);
    CheckMoves(sys, sys', id, user, minted, s, token, times', delay);
    forall i | 0 <= i < |times'| && !Landed(s, times'[i]) ensures TouchPending(sys', token, times'[i]) {
      if i < |times| { PendingStays(sys, sys', id, token, times[i]); }
      else { assert Writing(sys'.calls[id], token); }
    }
    forall i | i in sys'.calls ensures CallOnTime(t, s, token, times', sys'.calls[i], delay) {
      if i != id { MoreOnTime(t, s, token, times, t, sys.calls[i], delay); }
    }
  }

  lemma CheckMoves(sys: Sys, sys': Sys, id: nat, user: Option<string>, minted: string, s: Session, token: string,
                   times: seq<int>, delay: nat)
    requires id in sys.calls && sys.calls[id].ResolveCheck? && sys.calls[id].token == token
    requires sys' == Next(sys, Do(id, user, minted)) && CallOk(sys, sys.calls[id]) && SessionOk(sys, s)
    requires token in sys.sessions && s == sys.sessions[token] && !Dead(sys.calls[id].record, sys.clock)
    requires Current(s, sys.calls[id].record, sys.calls[id].since, delay)
    requires sys.calls[id].since <= sys.clock <= sys.calls[id].since + delay
    ensures sys'.calls == sys.calls[id := sys'.calls[id]] && sys'.sessions == sys.sessions && sys'.clock == sys.clock
    ensures CallOnTime(sys.clock, s, token, times, sys'.calls[id], delay) && sys'.calls[id] != Ended(NoPrincipal)
    ensures Landed(s, sys.clock) || (Writing(sys'.calls[id], token) && sys'.calls[id].now == sys.clock)
  {
  }

  lemma MoreOnTime(clock: int, s: Session, token: string, times: seq<int>, t: int, call: Call, delay: nat)
    requires CallOnTime(clock, s, token, times, call, delay) && clock <= t
    ensures CallOnTime(clock, s, token, times + [t], call, delay)
  {
    hide Landed, Current;
  }

  /** Writing: whether the touch wins or loses, the check it was for has landed. */
  lemma TouchOnTime(sys: Sys, sys': Sys, id: nat, token: string, times: seq<int>, delay: nat, user: Option<string>, minted: string)
    requires Inv(sys) && OnTime(sys, token, times, delay) && Prompt(sys, token, delay)
    requires id in sys.calls && Writing(sys.calls[id], token)
    requires sys' == Next(sys, Do(id, user, minted)) && 4 * delay <= sys.policy.window
    requires token in sys.sessions && sys.sessions[token].revoked.None?
    ensures OnTime(sys', token, times, delay) && sys'.calls[id] != Ended(NoPrincipal)
  {
    var s, call := sys.sessions[token], sys.calls[id];
    assert CallOk(sys, call) && CallOnTime(sys.clock, s, token, times, call, delay);
    TouchMoves(sys, sys', id, user, minted, token, delay);
    var s' := sys'.sessions[token];
    forall i | 0 <= i < |times| && !Landed(s', times[i]) ensures TouchPending(sys', token, times[i]) {
      assert !Landed(s, times[i]);
      var j :| j in sys.calls && Writing(sys.calls[j], token) && sys.calls[j].now == times[i];
      assert j != id && Writing(sys'.calls[j], token) && sys'.calls[j].now == times[i];
    }
    forall i | i in sys'.calls ensures CallOnTime(sys'.clock, s', token, times, sys'.calls[i], delay) {
      if i != id { SeenOnTime(sys.clock, s, s', token, times, sys.calls[i], delay); }
    }
  }

  lemma TouchMoves(sys: Sys, sys': Sys, id: nat, user: Option<string>, minted: string, token: string, delay: nat)
    requires Inv(sys) && id in sys.calls && Writing(sys.calls[id], token) && CallOk(sys, sys.calls[id])
    requires sys' == Next(sys, Do(id, user, minted)) && 4 * delay <= sys.policy.window
    requires token in sys.sessions && sys.sessions[token].revoked.None?
    requires Current(sys.sessions[token], sys.calls[id].record, sys.calls[id].since, delay)
    requires sys.calls[id].since <= sys.calls[id].now <= sys.calls[id].since + delay
    requires sys.clock <= sys.calls[id].now + delay
    ensures sys'.calls == sys.calls[id := sys'.calls[id]] && sys'.clock == sys.clock && token in sys'.sessions
    ensures var s, s' := sys.sessions[token], sys'.sessions[token];
            && Landed(s', sys.calls[id].now) && (s' == s || sys.clock - delay <= s'.lastSeen)
            && s.lastSeen <= s'.lastSeen && WindowOf(s') == WindowOf(s) && s'.absolute == s.absolute && s'.revoked.None?
    ensures !Writing(sys'.calls[id], token) && sys'.calls[id] != Ended(NoPrincipal)
    ensures forall times :: CallOnTime(sys'.clock, sys'.sessions[token], token, times, sys'.calls[id], delay)
  {
  }

  lemma SeenOnTime(clock: int, s: Session, s': Session, token: string, times: seq<int>, call: Call, delay: nat)
    requires CallOnTime(clock, s, token, times, call, delay)
    requires s' == s || clock - delay <= s'.lastSeen
    requires s.lastSeen <= s'.lastSeen && (call.ResolveTouch? && call.token == token ==> call.now <= clock)
    ensures CallOnTime(clock, s', token, times, call, delay)
  {
    hide Landed;
  }

  // ---- Every step --------------------------------------------------------

  /** The session is there and not revoked. */
  predicate Open(sys: Sys, token: string) { token in sys.sessions && sys.sessions[token].revoked.None? }

  /** A step that is no check or write of the token's requests and leaves its session as it is. */
  lemma QuietStep(sys: Sys, step: Step, token: string, times: seq<int>, delay: nat)
    requires Inv(sys) && OnTime(sys, token, times, delay) && Prompt(sys, token, delay)
    requires KeepsWriting(sys, step, token) && !IsCheck(sys, step, token) && Open(sys, token)
    requires step.Do? && step.id in sys.calls ==> !Writing(sys.calls[step.id], token)
    requires Open(Next(sys, step), token) && Next(sys, step).sessions[token] == sys.sessions[token]
    ensures OnTime(Next(sys, step), token, times, delay)
  {
    hide OnTime, Inv, Landed, Current, CallOnTime, Advance;
    var sys' := Next(sys, step);
    match step
    case Resolve(id, _) => BegunOnTime(sys, sys', id, token, times, delay);
    case Revoke(id, _) => BegunOnTime(sys, sys', id, token, times, delay);
    case Login(id, _) => BegunOnTime(sys, sys', id, token, times, delay);
    case Crash(id) => OnTimeFrame(sys, sys', id, token, times, delay);
    case Do(id, user, minted) =>
      if id in sys.calls {
        DoneOnTime(sys, sys', id, token, times, delay, user, minted);
      }
      OnTimeFrame(sys, sys', id, token, times, delay);
    case _ => OnTimeFrame(sys, sys', 0, token, times, delay);
  }

  lemma BegunOnTime(sys: Sys, sys': Sys, id: nat, token: string, times: seq<int>, delay: nat)
    requires OnTime(sys, token, times, delay) && token in sys.sessions
    requires sys'.sessions == sys.sessions && sys'.clock == sys.clock
    requires sys'.calls == sys.calls ||
             (id !in sys.calls && id in sys'.calls && sys'.calls == sys.calls[id := sys'.calls[id]]
              && (sys'.calls[id].ResolveFind? || sys'.calls[id].RevokeFind? || sys'.calls[id].LoginFind?))
    ensures OnTime(sys', token, times, delay)
  {
    hide OnTime, Landed, Current;
    OnTimeFrame(sys, sys', id, token, times, delay);
  }

  /** Where a call stands after a step that is neither a check nor a write of the token's requests. */
  lemma DoneOnTime(sys: Sys, sys': Sys, id: nat, token: string, times: seq<int>, delay: nat, user: Option<string>, minted: string)
    requires OnTime(sys, token, times, delay) && Prompt(sys, token, delay) && Open(sys, token)
    requires id in sys.calls && sys' == Next(sys, Do(id, user, minted))
    requires !Writing(sys.calls[id], token) && !IsCheck(sys, Do(id, user, minted), token)
    ensures id in sys'.calls && sys'.calls == sys.calls[id := sys'.calls[id]] && sys'.clock == sys.clock
    ensures CallOnTime(sys'.clock, sys.sessions[token], token, times, sys'.calls[id], delay)
  {
    hide Landed, Dead, WantsTouch, ConsumedIn, ConsumeOf, Touched, Revoked, CasOf, OnTime;
    var call := sys.calls[id];
    assert sys.calls[id := call] == sys.calls;
    if call.ResolveFind? && call.token == token {
      forall i | 0 <= i < |times| && times[i] < sys.clock - delay ensures Landed(sys.sessions[token], times[i]) {
        FindOnTime(sys, token, times, delay, i);
      }
    } else if call.Ended? {
      EndedOnTime(sys, id, token, times, delay);
    }
  }

  lemma EndedOnTime(sys: Sys, id: nat, token: string, times: seq<int>, delay: nat)
    requires id in sys.calls && sys.calls[id].Ended? && token in sys.sessions
    ensures CallOnTime(sys.clock, sys.sessions[token], token, times, sys.calls[id], delay)
  {
  }

  /** A request past its first look at a session that exists. */
  predicate Resolving(sys: Sys, id: nat, token: string) {
    id in sys.calls &&
    var call := sys.calls[id];
    || (call.ResolveFind? && call.token == token && |token| >= MIN_TOKEN)
    || ((call.ResolveCheck? || call.ResolveTouch? || call.ResolveReread?) && call.token == token)
  }

  /** Re-reading after a lost race: the winner saw the session late enough. */
  lemma RereadAlive(sys: Sys, id: nat, token: string, times: seq<int>, delay: nat, user: Option<string>, minted: string)
    requires Inv(sys) && OnTime(sys, token, times, delay) && Open(sys, token) && 4 * delay <= sys.policy.window
    requires id in sys.calls && sys.calls[id].ResolveReread? && sys.calls[id].token == token
    ensures Next(sys, Do(id, user, minted)).calls[id] != Ended(NoPrincipal)
  {
    assert CallOk(sys, sys.calls[id]);
    assert CallOnTime(sys.clock, sys.sessions[token], token, times, sys.calls[id], delay);
  }

  /** One step of a steady run; whoever is looking at the session is served. */
  lemma OnTimeStep(sys: Sys, step: Step, token: string, times: seq<int>, gap: nat, delay: nat)
    requires Inv(sys) && OnTime(sys, token, times, delay) && Prompt(sys, token, delay) && KeepsWriting(sys, step, token)
    requires Bears(sys.policy.window, gap, delay) && Open(sys, token) && Open(Next(sys, step), token)
    requires SteadyTimes(sys.sessions[token], sys.policy.window,
                         times + if IsCheck(sys, step, token) then [sys.clock] else [], gap)
    ensures OnTime(Next(sys, step), token, times + if IsCheck(sys, step, token) then [sys.clock] else [], delay)
    ensures step.Do? && Resolving(sys, step.id, token) ==> Next(sys, step).calls[step.id] != Ended(NoPrincipal)
  {
    hide OnTime, Inv, Landed, Current, CallOnTime, Next;
    if IsCheck(sys, step, token) {
      CheckOnTime(sys, Next(sys, step), step.id, token, times, gap, delay, step.user, step.token);
    } else {
      assert times + [] == times;
      if step.Do? && step.id in sys.calls && Writing(sys.calls[step.id], token) {
        TouchOnTime(sys, Next(sys, step), step.id, token, times, delay, step.user, step.token);
      } else {
        SameSession(sys, step, token);
        QuietStep(sys, step, token, times, delay);
        if step.Do? && Resolving(sys, step.id, token) {
          if sys.calls[step.id].ResolveReread? {
            RereadAlive(sys, step.id, token, times, delay, step.user, step.token);
          } else {
            FindServed(sys, step.id, token, step.user, step.token);
          }
        }
      }
    }
  }

  lemma FindServed(sys: Sys, id: nat, token: string, user: Option<string>, minted: string)
    requires id in sys.calls && sys.calls[id].ResolveFind? && sys.calls[id].token == token && |token| >= MIN_TOKEN
    requires token in sys.sessions
    ensures Next(sys, Do(id, user, minted)).calls[id] != Ended(NoPrincipal)
  {
  }

  /** Only its own writes and revocations change a session. */
  lemma SameSession(sys: Sys, step: Step, token: string)
    requires Open(sys, token) && Open(Next(sys, step), token)
    requires step.Do? && step.id in sys.calls ==> !Writing(sys.calls[step.id], token)
    ensures Next(sys, step).sessions[token] == sys.sessions[token]
  {
    hide Dead, WantsTouch, ConsumedIn, ConsumeOf;
  }

  /** A session that was just made, or is not there, has had no checks. */
  lemma UnseenOnTime(sys: Sys, step: Step, token: string, times: seq<int>, delay: nat)
    requires Inv(sys) && OnTime(sys, token, times, delay) && token !in sys.sessions
    ensures !IsCheck(sys, step, token) && times == []
    ensures OnTime(Next(sys, step), token, [], delay)
  {
    hide Landed, Current, Dead, WantsTouch, ConsumedIn, ConsumeOf, SessionOk;
    forall id | id in sys.calls ensures CallOk(sys, sys.calls[id]) {}
    var sys' := Next(sys, step);
    if token in sys'.sessions {
      forall id | id in sys'.calls ensures CallOnTime(sys'.clock, sys'.sessions[token], token, [], sys'.calls[id], delay) {
        if id in sys.calls { assert CallOk(sys, sys.calls[id]); }
      }
    }
  }

  lemma StartOnTime(p: Policy, clock: int, token: string, delay: nat)
    ensures OnTime(Start(p, clock), token, [], delay)
  {
  }

  /** What a step may do to the session, as seen from a longer run. */
  lemma SteadyBefore(sys: Sys, step: Step, token: string, times: seq<int>, more: seq<int>, gap: nat)
    requires Inv(sys) && token in sys.sessions && |more| <= 1
    requires token in Next(sys, step).sessions
             && SteadyTimes(Next(sys, step).sessions[token], sys.policy.window, times + more, gap)
    ensures SteadyTimes(sys.sessions[token], sys.policy.window, times, gap)
    ensures SteadyTimes(sys.sessions[token], sys.policy.window, times + more, gap)
  {
    hide Next, Inv;
    StepKeeps(sys, step);
    assert Evolves(sys.sessions[token], Next(sys, step).sessions[token]);
    assert forall i | 0 <= i < |times| :: times[i] == (times + more)[i];
    if |more| == 1 { assert (times + more)[..|times + more| - 1] == times; } else { assert times + more == times; }
  }

  /** In a steady run every check of the token has landed or is about to. */
  lemma {:induction false} AlwaysOnTime(p: Policy, clock: int, run: seq<Step>, token: string, gap: nat, delay: nat)
    requires Steady(p, clock, run, token, gap, delay) && Bears(p.window, gap, delay)
    ensures OnTime(AfterRun(p, clock, run), token, CheckTimes(p, clock, run, token), delay)
  {
    hide OnTime, Inv, Next, SteadyTimes, IsCheck, KeepsWriting, Prompt;
    if run == [] {
      StartOnTime(p, clock, token, delay);
    } else {
      var before, step := run[..|run| - 1], run[|run| - 1];
      var sys, times := AfterRun(p, clock, before), CheckTimes(p, clock, before, token);
      AlwaysInv(p, clock, before);
      SteadyFront(p, clock, run, token, gap, delay);
      AlwaysOnTime(p, clock, before, token, gap, delay);
      if token !in sys.sessions {
        UnseenOnTime(sys, step, token, times, delay);
        assert times + [] == [];
      } else if Open(Next(sys, step), token) {
        WasOpen(sys, step, token);
        SteadyBefore(sys, step, token, times, if IsCheck(sys, step, token) then [sys.clock] else [], gap);
        OnTimeStep(sys, step, token, times, gap, delay);
      } else {
        ShutOnTime(sys, step, token, times, delay, AfterRun(p, clock, run), CheckTimes(p, clock, run, token));
      }
    }
  }

  lemma SteadyFront(p: Policy, clock: int, run: seq<Step>, token: string, gap: nat, delay: nat)
    requires run != [] && Steady(p, clock, run, token, gap, delay)
    ensures Steady(p, clock, run[..|run| - 1], token, gap, delay)
  {
    hide SteadyTimes, IsCheck, KeepsWriting, Prompt, Next, Inv;
    var before, step := run[..|run| - 1], run[|run| - 1];
    var sys := AfterRun(p, clock, before);
    AlwaysInv(p, clock, before);
    if token in sys.sessions {
      StepKeeps(sys, step);
      SteadyBefore(sys, step, token, CheckTimes(p, clock, before, token),
                   if IsCheck(sys, step, token) then [sys.clock] else [], gap);
    }
  }

  lemma WasOpen(sys: Sys, step: Step, token: string)
    requires Inv(sys) && token in sys.sessions && Open(Next(sys, step), token)
    ensures Open(sys, token)
  {
    hide Next, Inv;
    StepKeeps(sys, step);
  }

  lemma ShutOnTime(sys: Sys, step: Step, token: string, times: seq<int>, delay: nat, sys': Sys, times': seq<int>)
    requires Inv(sys) && token in sys.sessions && sys' == Next(sys, step) && !Open(sys', token)
    ensures OnTime(sys', token, times', delay)
  {
    hide Next, Inv;
    StepKeeps(sys, step);
  }

  /** A request for the open session, at this step of a steady run, is not turned away. */
  predicate ServedNext(p: Policy, clock: int, run: seq<Step>, token: string, gap: nat, delay: nat,
                       id: nat, user: Option<string>, minted: string)
  {
    var whole := run + [Do(id, user, minted)];
    var sys, sys' := AfterRun(p, clock, run), AfterRun(p, clock, whole);
    Steady(p, clock, whole, token, gap, delay) && Open(sys, token) && Resolving(sys, id, token) && Open(sys', token) ==>
      id in sys'.calls && sys'.calls[id] != Ended(NoPrincipal)
  }

  /**
   * Requests may overlap and race. If none takes longer than delay between its read, its
   * check and its write, none crashes before its write, and a check comes at least every
   * gap, with 2 gap + 4 delay at most one more than the window, then until one window
   * before the absolute end every request for a session that is not revoked is served.
   */
  lemma PromptRequestsServed(p: Policy, clock: int, run: seq<Step>, token: string, gap: nat, delay: nat,
                             id: nat, user: Option<string>, minted: string)
    requires Bears(p.window, gap, delay)
    ensures ServedNext(p, clock, run, token, gap, delay, id, user, minted)
  {
    hide OnTime, Inv, SteadyTimes, IsCheck, KeepsWriting, Prompt, Resolving, Next, Open, Bears;
    var step := Do(id, user, minted);
    var whole := run + [step];
    assert whole[..|whole| - 1] == run && whole[|whole| - 1] == step;
    var sys, times := AfterRun(p, clock, run), CheckTimes(p, clock, run, token);
    if Steady(p, clock, whole, token, gap, delay) && Open(sys, token) && Resolving(sys, id, token) && Open(Next(sys, step), token) {
      SteadyFront(p, clock, whole, token, gap, delay);
      AlwaysInv(p, clock, run);
      AlwaysOnTime(p, clock, run, token, gap, delay);
      assert token in sys.sessions && token in Next(sys, step).sessions by { OpenMeans(sys, step, token); }
      SteadyBefore(sys, step, token, times, if IsCheck(sys, step, token) then [sys.clock] else [], gap);
      OnTimeStep(sys, step, token, times, gap, delay);
      CallRemains(sys, id, user, minted, token);
    }
  }

  lemma CallRemains(sys: Sys, id: nat, user: Option<string>, minted: string, token: string)
    requires Resolving(sys, id, token)
    ensures id in Next(sys, Do(id, user, minted)).calls
  {
  }

  lemma OpenMeans(sys: Sys, step: Step, token: string)
    requires Open(sys, token) && Open(Next(sys, step), token)
    ensures token in sys.sessions && token in Next(sys, step).sessions
  {
  }
}
