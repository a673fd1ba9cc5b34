/**
 * The capability matrix (packages/agent/src/capabilities.ts), the probe suite
 * (packages/agent/src/ports.ts) and the probe loop of packages/agent/src/verifier.ts:
 * which capabilities count as verified after a provider has answered, or failed to answer,
 * every probe.
 */
module Capabilities {
  import opened Basics

  const MANDATORY := ["session_create", "session_get", "turn_create", "turn_get", "one_active_turn",
                      "event_stream", "mcp_interception", "required_action_resume"]

  const OPTIONAL := ["event_cursor", "event_delta", "event_replay", "checkpoint_replay", "sandbox", "cancellation",
                     "subagents", "context_compaction", "final_response", "idempotency_semantics"]

  predicate Known(name: string) { name in MANDATORY || name in OPTIONAL }

  const FATAL_TOOLS := "direct_mutative_github_tools"

  // ---- Claims ------------------------------------------------------------

  /** One entry of the claims map; the map keeps the order of insertion. */
  datatype Claim = Claim(name: string, ok: bool)

  predicate DistinctNames(c: seq<Claim>) { forall i, j | 0 <= i < j < |c| :: c[i].name != c[j].name }

  type Claims = c: seq<Claim> | DistinctNames(c)

  function Get(c: seq<Claim>, name: string): Option<bool> {
    if c == [] then None else if c[0].name == name then Some(c[0].ok) else Get(c[1..], name)
  }

  lemma {:induction false} GetMeans(c: seq<Claim>, name: string)
    ensures Get(c, name).None? <==> forall i | 0 <= i < |c| :: c[i].name != name
    ensures Get(c, name).Some? ==> Claim(name, Get(c, name).value) in c
  {
    if c != [] {
      GetMeans(c[1..], name);
      assert forall i | 1 <= i < |c| :: c[i] == c[1..][i - 1];
    }
  }

  function Set(c: Claims, name: string, ok: bool): (r: Claims)
    ensures forall other :: Get(r, other) == if other == name then Some(ok) else Get(c, other)
    ensures forall i | 0 <= i < |r| :: r[i].name == name || exists j | 0 <= j < |c| :: c[j].name == r[i].name
  {
    if c == [] then
      var r := [Claim(name, ok)];
      assert r[1..] == [];
      r
    else if c[0].name == name then
      var r := [Claim(name, ok)] + c[1..];
      assert r[1..] == c[1..];
      r
    else
      var rest := Set(c[1..], name, ok);
      var r := [c[0]] + rest;
      assert r[1..] == rest;
      r
  }

  // ---- Probes ------------------------------------------------------------

  datatype Probe = Probe(id: string, names: seq<string>)

  const SUITE: seq<Probe> := [
    Probe("session_probe", ["session_create", "session_get", "one_active_turn"]),
    Probe("turn_probe", ["turn_create", "turn_get", "final_response"]),
    Probe("event_probe", ["event_stream", "event_cursor", "event_replay", "event_delta", "idempotency_semantics"]),
    Probe("interception_probe", ["mcp_interception", "checkpoint_replay", "cancellation"]),
    Probe("required_action_probe", ["required_action_resume"]),
    Probe("sandbox_probe", ["sandbox"]),
    Probe("context_probe", ["subagents", "context_compaction"])]

  /** What a probe call gives: an exception, a payload the schema refuses, or an answer. */
  datatype Answer = Throws | Malformed | Answer(ok: bool, names: seq<string>)

  /** Only names of the form ^[a-z][a-z0-9_]*$ up to 64 characters are looked at. */
  predicate WellNamed(name: string) {
    && 1 <= |name| <= 64 && 'a' <= name[0] <= 'z'
    && forall c | c in name :: 'a' <= c <= 'z' || IsDigit(c) || c == '_'
  }

  function Named(names: seq<string>): seq<string> {
    if names == [] then [] else (if WellNamed(names[0]) then [names[0]] else []) + Named(names[1..])
  }

  predicate Lists(a: Answer, name: string) { a.Answer? && name in a.names && WellNamed(name) }
  predicate Vouches(a: Answer, name: string) { Lists(a, name) && a.ok }

  /** The claims after the capabilities a probe owns are set from its answer. */
  function SetOwned(c: Claims, names: seq<string>, a: Answer): (r: Claims)
    ensures forall n :: Get(r, n) == if n in names then Some(Vouches(a, n)) else Get(c, n)
    decreases |names|
  {
    if names == [] then c
    else
      assert names == [names[0]] + names[1..];
      SetOwned(Set(c, names[0], Vouches(a, names[0])), names[1..], a)
  }

  /** The claims after the names an answer lists are added, if not there. */
  function AddListed(c: Claims, names: seq<string>, ok: bool): (r: Claims)
    ensures forall n :: Get(r, n) == if n in names && Get(c, n).None? then Some(ok) else Get(c, n)
    decreases |names|
  {
    if names == [] then c
    else
      assert names == [names[0]] + names[1..];
      AddListed(if Get(c, names[0]).None? then Set(c, names[0], ok) else c, names[1..], ok)
  }

  function AfterProbe(c: Claims, probe: Probe, a: Answer): Claims {
    var owned := SetOwned(c, probe.names, a);
    if a.Answer? then AddListed(owned, Named(a.names), a.ok) else owned
  }

  function AfterProbes(suite: seq<Probe>, answers: seq<Answer>): Claims
    requires |suite| == |answers|
  {
    if suite == [] then []
    else
      var k := |suite| - 1;
      AfterProbe(AfterProbes(suite[..k], answers[..k]), suite[k], answers[k])
  }

  function FailureOf(probe: Probe, a: Answer): seq<string> {
    match a
    case Throws => [probe.id + ":error"]
    case Malformed => [probe.id + ":schema"]
    case Answer(ok, _) => if ok then [] else [probe.id + ":not_ok"]
  }

  function Failures(suite: seq<Probe>, answers: seq<Answer>): seq<string>
    requires |suite| == |answers|
  {
    if suite == [] then []
    else
      var k := |suite| - 1;
      Failures(suite[..k], answers[..k]) + FailureOf(suite[k], answers[k])
  }

  /** The test of the schema's pattern for names. */
  method IsWellNamed(name: string) returns (ok: bool)
    ensures ok <==> WellNamed(name)
  {
    if name == "" || |name| > 64 || name[0] < 'a' || 'z' < name[0] { return false; }
    for i := 0 to |name|
      invariant forall j | 0 <= j < i :: 'a' <= name[j] <= 'z' || IsDigit(name[j]) || name[j] == '_'
    {
      if !('a' <= name[i] <= 'z' || '0' <= name[i] <= '9' || name[i] == '_') {
        assert name[i] in name;
        return false;
      }
    }
    return true;
  }

  /** The probe loop. */
  method RunProbes(answers: seq<Answer>) returns (claims: Claims, failures: seq<string>)
    requires |answers| == |SUITE|
    ensures claims == AfterProbes(SUITE, answers)
    ensures failures == Failures(SUITE, answers)
  {
    hide AfterProbe, FailureOf;
    claims, failures := [], [];
    for k := 0 to |SUITE|
      invariant claims == AfterProbes(SUITE[..k], answers[..k])
      invariant failures == Failures(SUITE[..k], answers[..k])
    {
      var probe, a := SUITE[k], answers[k];
      ProbesNext(SUITE, answers, k);
      claims, failures := RunProbe(claims, failures, probe, a);
    }
    assert SUITE[..|SUITE|] == SUITE && answers[..|SUITE|] == answers;
  }

  lemma ProbesNext(suite: seq<Probe>, answers: seq<Answer>, k: nat)
    requires |suite| == |answers| && k < |suite|
    ensures AfterProbes(suite[..k + 1], answers[..k + 1]) ==
            AfterProbe(AfterProbes(suite[..k], answers[..k]), suite[k], answers[k])
    ensures Failures(suite[..k + 1], answers[..k + 1]) ==
            Failures(suite[..k], answers[..k]) + FailureOf(suite[k], answers[k])
  {
    assert suite[..k + 1][..k] == suite[..k] && answers[..k + 1][..k] == answers[..k];
  }

  /** One round of the loop. */
  method RunProbe(before: Claims, failed: seq<string>, probe: Probe, a: Answer)
    returns (claims: Claims, failures: seq<string>)
    ensures claims == AfterProbe(before, probe, a) && failures == failed + FailureOf(probe, a)
  {
    hide Set, Get, SetOwned, AddListed, WellNamed;
    claims, failures := before, failed;
    ghost var owned := SetOwned(before, probe.names, a);
    var i := 0;
    while i < |probe.names|
      invariant i <= |probe.names| && SetOwned(claims, probe.names[i..], a) == owned
    {
      SetOwnedNext(claims, probe.names, i, a);
      var name := probe.names[i];
      var well := IsWellNamed(name);
      claims := Set(claims, name, a.Answer? && a.ok && name in a.names && well);
      i := i + 1;
    }
    SetOwnedDone(claims, probe.names, a);
    if a.Throws? { return claims, failures + [probe.id + ":error"]; }
    if a.Malformed? { return claims, failures + [probe.id + ":schema"]; }
    claims := AddNames(claims, a.names, a.ok);
    if !a.ok { failures := failures + [probe.id + ":not_ok"]; }
    assert failures == failed + FailureOf(probe, a);
  }

  /** Adds the well-formed ones of the names an answer lists. */
  method AddNames(before: Claims, names: seq<string>, ok: bool) returns (claims: Claims)
    ensures claims == AddListed(before, Named(names), ok)
  {
    hide Set, Get, WellNamed, AddListed;
    claims := before;
    var i := 0;
    while i < |names|
      invariant i <= |names| && AddListed(claims, Named(names[i..]), ok) == AddListed(before, Named(names), ok)
    {
      AddListedNext(claims, names, i, ok);
      var well := IsWellNamed(names[i]);
      if well && Get(claims, names[i]).None? { claims := Set(claims, names[i], ok); }
      i := i + 1;
    }
    AddListedDone(claims, names, ok);
  }

  lemma AddListedNext(c: Claims, names: seq<string>, i: nat, ok: bool)
    requires i < |names|
    ensures AddListed(c, Named(names[i..]), ok) ==
            AddListed(if WellNamed(names[i]) && Get(c, names[i]).None? then Set(c, names[i], ok) else c,
                      Named(names[i + 1..]), ok)
  {
    hide Set, Get, WellNamed;
    var rest, more := names[i..], Named(names[i + 1..]);
    assert rest[0] == names[i] && rest[1..] == names[i + 1..];
    if WellNamed(names[i]) {
      assert Named(rest) == [names[i]] + more;
      assert ([names[i]] + more)[1..] == more;
    } else {
      assert Named(rest) == more;
    }
  }

  lemma AddListedDone(c: Claims, names: seq<string>, ok: bool)
    ensures AddListed(c, Named(names[|names|..]), ok) == c
  {
  }

  lemma SetOwnedNext(c: Claims, names: seq<string>, i: nat, a: Answer)
    requires i < |names|
    ensures SetOwned(c, names[i..], a) == SetOwned(Set(c, names[i], Vouches(a, names[i])), names[i + 1..], a)
  {
    hide Set, Get, Vouches;
    assert names[i..][0] == names[i] && names[i..][1..] == names[i + 1..];
  }

  lemma SetOwnedDone(c: Claims, names: seq<string>, a: Answer)
    ensures SetOwned(c, names[|names|..], a) == c
  {
  }

  /** A probe that throws, is malformed or not in order fails by its name. */
  lemma FailsByName(k: nat, name: string, names: seq<string>)
    requires (k, name) in {(0, "session_probe"), (1, "turn_probe"), (2, "event_probe"), (3, "interception_probe"),
                           (4, "required_action_probe"), (5, "sandbox_probe"), (6, "context_probe")}
    ensures FailureOf(SUITE[k], Throws) == [name + ":error"] && FailureOf(SUITE[k], Malformed) == [name + ":schema"]
    ensures FailureOf(SUITE[k], Answer(false, names)) == [name + ":not_ok"] && FailureOf(SUITE[k], Answer(true, names)) == []
  {
  }

  // ---- Which probe decides -----------------------------------------------

  lemma {:induction false} NamedMeans(names: seq<string>)
    ensures forall n :: n in Named(names) <==> n in names && WellNamed(n)
  {
    hide WellNamed;
    if names != [] {
      NamedMeans(names[1..]);
      assert names == [names[0]] + names[1..];
    }
  }

  /** No two probes own the same name. */
  ghost predicate Disjoint(suite: seq<Probe>) {
    forall i, j, n | 0 <= i < |suite| && 0 <= j < |suite| && n in suite[i].names && n in suite[j].names :: i == j
  }

  ghost predicate Owns(suite: seq<Probe>, k: nat, name: string) { k < |suite| && name in suite[k].names }

  ghost predicate Owned(suite: seq<Probe>, name: string) { exists k: nat :: Owns(suite, k, name) }

  ghost predicate Listed(answers: seq<Answer>, name: string) { exists k | 0 <= k < |answers| :: Lists(answers[k], name) }

  lemma AfterProbeGet(c: Claims, probe: Probe, a: Answer, name: string)
    ensures Get(AfterProbe(c, probe, a), name) ==
            if name in probe.names then Some(Vouches(a, name))
            else if Get(c, name).None? && Lists(a, name) then Some(a.ok)
            else Get(c, name)
  {
    hide WellNamed, Get;
    if a.Answer? { NamedMeans(a.names); }
  }

  /**
   * A name owned by a probe is claimed exactly as that probe vouches for it, whatever the
   * other probes say; any other name is claimed exactly when some valid answer lists it.
   */
  lemma {:induction false} ProbesIsolated(suite: seq<Probe>, answers: seq<Answer>, name: string)
    requires |suite| == |answers| && Disjoint(suite)
    ensures var c := AfterProbes(suite, answers);
            && (forall k: nat | Owns(suite, k, name) :: Get(c, name) == Some(Vouches(answers[k], name)))
            && (!Owned(suite, name) ==> (Get(c, name).Some? <==> Listed(answers, name)))
  {
    hide WellNamed, Lists, Vouches, AfterProbe, Get;
    GetMeans([], name);
    if suite != [] {
      var k := |suite| - 1;
      var front, before := suite[..k], answers[..k];
      ProbesIsolated(front, before, name);
      AfterProbeGet(AfterProbes(front, before), suite[k], answers[k], name);
      forall j: nat | Owns(suite, j, name)
        ensures Get(AfterProbes(suite, answers), name) == Some(Vouches(answers[j], name))
      {
        if j < k {
          assert Owns(front, j, name) && before[j] == answers[j];
          assert name !in suite[k].names;
        }
      }
      if !Owned(suite, name) {
        assert !Owns(suite, k, name);
        assert forall j: nat | Owns(front, j, name) :: Owns(suite, j, name);
        ListedNext(answers, k, name);
      }
    }
  }

  lemma ListedNext(answers: seq<Answer>, k: nat, name: string)
    requires |answers| == k + 1
    ensures Listed(answers, name) <==> Listed(answers[..k], name) || Lists(answers[k], name)
  {
    hide Lists;
    assert forall j | 0 <= j < k :: answers[..k][j] == answers[j];
  }

  // ---- The suite and the matrix ------------------------------------------

  lemma SuiteDisjoint()
    ensures Disjoint(SUITE)
  {
    forall i, j, n | 0 <= i < |SUITE| && 0 <= j < |SUITE| && n in SUITE[i].names && n in SUITE[j].names
      ensures i == j
    {
      OwnerOf(i, n);
      OwnerOf(j, n);
    }
  }

  /** The probe that decides a capability. */
  function Owner(name: string): nat {
    if name in ["session_create", "session_get", "one_active_turn"] then 0
    else if name in ["turn_create", "turn_get", "final_response"] then 1
    else if name in ["event_stream", "event_cursor", "event_replay", "event_delta", "idempotency_semantics"] then 2
    else if name in ["mcp_interception", "checkpoint_replay", "cancellation"] then 3
    else if name == "required_action_resume" then 4
    else if name == "sandbox" then 5
    else if name in ["subagents", "context_compaction"] then 6
    else 7
  }

  lemma OwnerOf(k: nat, name: string)
    requires k < |SUITE|
    ensures name in SUITE[k].names <==> Owner(name) == k
  {
  }

  /** The suite covers exactly the capabilities of the matrix. */
  lemma KnownIsOwned(name: string)
    ensures Known(name) <==> Owner(name) < 7
    ensures Known(name) <==> Owned(SUITE, name)
  {
    if Owner(name) < 7 {
      OwnerOf(Owner(name), name);
      assert Owns(SUITE, Owner(name), name);
    }
    forall k: nat | Owns(SUITE, k, name) ensures Owner(name) == k { OwnerOf(k, name); }
  }

  // ---- The verdict -------------------------------------------------------

  datatype Verdict = Compatible | Degraded | Incompatible

  datatype Evaluation = Evaluation(
    verdict: Verdict, missingMandatory: seq<string>, missingOptional: seq<string>,
    fatalPresent: seq<string>, unknown: seq<string>)

  function Missing(c: Claims, expected: seq<string>): seq<string> {
    if expected == [] then []
    else
      Missing(c, expected[..|expected| - 1])
      + if Get(c, expected[|expected| - 1]) == Some(true) then [] else [expected[|expected| - 1]]
  }

  function UnknownNames(c: seq<Claim>): seq<string> {
    if c == [] then []
    else UnknownNames(c[..|c| - 1]) + if Known(c[|c| - 1].name) then [] else [c[|c| - 1].name]
  }

  function FatalOnes(fatal: seq<string>): seq<string> {
    if fatal == [] then [] else (if fatal[0] == FATAL_TOOLS then [fatal[0]] else []) + FatalOnes(fatal[1..])
  }

  function Evaluate(c: Claims, fatal: seq<string>): Evaluation {
    var mandatory, optional, unknown := Missing(c, MANDATORY), Missing(c, OPTIONAL), UnknownNames(c);
    if FatalOnes(fatal) != [] then Evaluation(Incompatible, mandatory, optional, FatalOnes(fatal), unknown)
    else if mandatory != [] || unknown != [] then Evaluation(Incompatible, mandatory, optional, [], unknown)
    else if optional != [] then Evaluation(Degraded, mandatory, optional, [], unknown)
    else Evaluation(Compatible, [], [], [], [])
  }

  method MissingNames(c: Claims, expected: seq<string>) returns (out: seq<string>)
    ensures out == Missing(c, expected)
  {
    out := [];
    for i := 0 to |expected|
      invariant out == Missing(c, expected[..i])
    {
      assert expected[..i + 1][..i] == expected[..i];
      if Get(c, expected[i]) != Some(true) { out := out + [expected[i]]; }
    }
    assert expected[..|expected|] == expected;
  }

  method EvaluateCapabilities(c: Claims, fatal: seq<string>) returns (e: Evaluation)
    ensures e == Evaluate(c, fatal)
  {
    hide Missing, UnknownNames, FatalOnes, Known;
    var mandatory := MissingNames(c, MANDATORY);
    var optional := MissingNames(c, OPTIONAL);
    var unknown := UnknownClaims(c);
    var fatalOnlyKnown := FatalOnes(fatal);
    if fatalOnlyKnown != [] { return Evaluation(Incompatible, mandatory, optional, fatalOnlyKnown, unknown); }
    if |mandatory| > 0 || |unknown| > 0 { return Evaluation(Incompatible, mandatory, optional, [], unknown); }
    if |optional| > 0 { return Evaluation(Degraded, mandatory, optional, [], unknown); }
    return Evaluation(Compatible, [], [], [], []);
  }

  method UnknownClaims(c: Claims) returns (unknown: seq<string>)
    ensures unknown == UnknownNames(c)
  {
    hide Known;
    unknown := [];
    for i := 0 to |c|
      invariant unknown == UnknownNames(c[..i])
    {
      assert c[..i + 1][..i] == c[..i];
      if !Known(c[i].name) { unknown := unknown + [c[i].name]; }
    }
    assert c[..|c|] == c;
  }

  lemma {:induction false} MissingMeans(c: Claims, expected: seq<string>)
    ensures Missing(c, expected) == [] <==> AllTrue(c, expected)
  {
    if expected != [] {
      var front, last := expected[..|expected| - 1], expected[|expected| - 1];
      MissingMeans(c, front);
      assert expected == front + [last];
      assert forall n :: n in expected <==> n in front || n == last;
      assert Missing(c, expected) == [] <==> Missing(c, front) == [] && Get(c, last) == Some(true);
    }
  }

  lemma {:induction false} UnknownMeans(c: seq<Claim>)
    ensures UnknownNames(c) == [] <==> forall i | 0 <= i < |c| :: Known(c[i].name)
  {
    hide Known;
    if c != [] {
      UnknownMeans(c[..|c| - 1]);
      assert forall i | 0 <= i < |c| - 1 :: c[..|c| - 1][i] == c[i];
    }
  }

  lemma {:induction false} FatalMeans(fatal: seq<string>)
    ensures FatalOnes(fatal) == [] <==> FATAL_TOOLS !in fatal
  {
    if fatal != [] {
      FatalMeans(fatal[1..]);
      assert fatal == [fatal[0]] + fatal[1..];
    }
  }

  ghost predicate AllTrue(c: Claims, names: seq<string>) { forall n | n in names :: Get(c, n) == Some(true) }

  ghost predicate OnlyKnown(c: Claims) { forall n | Get(c, n).Some? :: Known(n) }

  /** What a verdict means; it depends only on which names are claimed and how. */
  lemma VerdictMeans(c: Claims, fatal: seq<string>)
    ensures var sound := FATAL_TOOLS !in fatal && AllTrue(c, MANDATORY) && OnlyKnown(c);
            Evaluate(c, fatal).verdict ==
            if !sound then Incompatible else if AllTrue(c, OPTIONAL) then Compatible else Degraded
  {
    hide Known, Missing, UnknownNames, FatalOnes;
    MissingMeans(c, MANDATORY);
    MissingMeans(c, OPTIONAL);
    UnknownMeans(c);
    FatalMeans(fatal);
    forall i | 0 <= i < |c| ensures Get(c, c[i].name).Some? { GetMeans(c, c[i].name); }
    forall n | Get(c, n).Some? ensures exists i | 0 <= i < |c| :: c[i].name == n { GetMeans(c, n); }
  }

  /** The fatal properties found; a detection that fails counts as present. */
  function FatalFound(detects: Option<bool>): seq<string> {
    if detects == Some(false) then [] else [FATAL_TOOLS]
  }

  lemma OperationalWhenVouched(answers: seq<Answer>, detects: Option<bool>)
    requires |answers| == |SUITE|
    ensures var c := AfterProbes(SUITE, answers);
            Evaluate(c, FatalFound(detects)).verdict != Incompatible <==>
            && detects == Some(false)
            && (forall n | n in MANDATORY :: Owner(n) < 7 && Vouches(answers[Owner(n)], n))
            && (forall n | Listed(answers, n) :: Known(n))
  {
    hide Lists, Vouches, Known, Evaluate, AfterProbes, Owner, Get;
    var c := AfterProbes(SUITE, answers);
    VerdictMeans(c, FatalFound(detects));
    SuiteDisjoint();
    forall n | n in MANDATORY ensures Owner(n) < 7 && Get(c, n) == Some(Vouches(answers[Owner(n)], n)) {
      MandatoryKnown(n);
      KnownIsOwned(n);
      OwnerOf(Owner(n), n);
      ProbesIsolated(SUITE, answers, n);
      assert Owns(SUITE, Owner(n), n);
    }
    forall n | !Known(n) ensures Get(c, n).Some? <==> Listed(answers, n) {
      KnownIsOwned(n);
      ProbesIsolated(SUITE, answers, n);
    }
  }

  /** What a provider must confirm, and in answer to which probe. */
  predicate Core(k: nat, name: string) {
    || (k == 0 && name in {"session_create", "session_get", "one_active_turn"})
    || (k == 1 && name in {"turn_create", "turn_get"}) || (k == 2 && name == "event_stream")
    || (k == 3 && name == "mcp_interception") || (k == 4 && name == "required_action_resume")
  }

  ghost predicate ConfirmsCore(answers: seq<Answer>)
    requires |answers| == 7
  {
    forall k: nat, n | k < 7 && Core(k, n) :: answers[k].Answer? && answers[k].ok && n in answers[k].names
  }

  lemma CoreIsMandatory(k: nat, name: string)
    ensures Core(k, name) <==> name in MANDATORY && Owner(name) == k
  {
  }

  lemma CoreNamed(k: nat, name: string)
    requires Core(k, name)
    ensures WellNamed(name) && k < 7
  {
  }

  lemma CoreVouched(answers: seq<Answer>)
    requires |answers| == 7
    ensures ConfirmsCore(answers) <==> forall n | n in MANDATORY :: Owner(n) < 7 && Vouches(answers[Owner(n)], n)
  {
    hide Owner, Core, WellNamed;
    forall k: nat, n ensures Core(k, n) <==> n in MANDATORY && Owner(n) == k { CoreIsMandatory(k, n); }
    forall k: nat, n | Core(k, n) ensures WellNamed(n) && k < 7 { CoreNamed(k, n); }
    forall n | n in MANDATORY ensures Core(Owner(n), n) { }
  }

  /**
   * For any behaviour of the provider: the run ends operational exactly when the fatal
   * property is known to be absent, the probes confirm the sessions, turns, events,
   * interception and required actions they own, and no valid answer lists a name outside
   * the matrix.
   */
  lemma OperationalExactlyWhen(answers: seq<Answer>, detects: Option<bool>)
    requires |answers| == 7
    ensures Evaluate(AfterProbes(SUITE, answers), FatalFound(detects)).verdict != Incompatible <==>
            detects == Some(false) && ConfirmsCore(answers) && forall n | Listed(answers, n) :: Known(n)
  {
    hide Vouches, Known, Evaluate, AfterProbes, Owner, ConfirmsCore, Listed;
    OperationalWhenVouched(answers, detects);
    CoreVouched(answers);
  }

  lemma MandatoryKnown(name: string)
    requires name in MANDATORY
    ensures Known(name)
  {
  }
}
