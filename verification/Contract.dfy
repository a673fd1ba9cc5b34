/**
 * Contract snapshots: sealing and re-verifying them (packages/agent/src/snapshot.ts), the
 * verifier that records them (packages/agent/src/verifier.ts) and the gate that relies on
 * them (packages/agent/src/preflight.ts).
 */
module Contract {
  import opened Basics
  import opened Json
  import Canonical
  import opened Capabilities

  // ---- The sealed shape --------------------------------------------------

  datatype Ident = Ident(
    endpoint: string, provider: string, serverVersion: string,
    sdkPackage: Option<string>, sdkVersion: Option<string>, sdkIntegrity: Option<string>,
    authMode: Option<string>, topology: Option<string>)

  const SUITE_VERSION: int := 1

  function TextOf(o: Option<string>): Value { if o.None? then Undefined else Str(o.value) }

  function ClaimFields(c: seq<Claim>): seq<Field> {
    if c == [] then [] else [Field(c[0].name, Bool(c[0].ok))] + ClaimFields(c[1..])
  }

  function Texts(names: seq<string>): seq<Value> {
    if names == [] then [] else [Str(names[0])] + Texts(names[1..])
  }

  function ShapeFields(i: Ident, suite: int, c: seq<Claim>, fatal: seq<string>): seq<Field> {
    [Field("endpointIdentity", Str(i.endpoint)), Field("provider", Str(i.provider)),
     Field("serverVersion", Str(i.serverVersion)), Field("sdkPackage", TextOf(i.sdkPackage)),
     Field("sdkVersion", TextOf(i.sdkVersion)), Field("sdkIntegrity", TextOf(i.sdkIntegrity)),
     Field("authMode", TextOf(i.authMode)), Field("topology", TextOf(i.topology)),
     Field("suiteVersion", Num(Integer(suite))), Field("capabilities", Obj(ClaimFields(c))),
     Field("fatalProperties", Arr(Texts(fatal)))]
  }

  function Shape(i: Ident, suite: int, c: seq<Claim>, fatal: seq<string>): Value {
    Obj(ShapeFields(i, suite, c, fatal))
  }

  /** SHA-256, taken to be injective and never all zeros. */
  datatype Digest = Sha256(text: string) | Zeros

  lemma {:induction false} ClaimFieldsAt(c: seq<Claim>)
    ensures var f := ClaimFields(c);
            |f| == |c| && forall k | 0 <= k < |c| :: f[k] == Field(c[k].name, Bool(c[k].ok))
  {
    if c != [] {
      ClaimFieldsAt(c[1..]);
      assert forall k | 1 <= k < |c| :: c[k] == c[1..][k - 1];
    }
  }

  lemma {:induction false} TextsAt(names: seq<string>)
    ensures var t := Texts(names); |t| == |names| && forall k | 0 <= k < |names| :: t[k] == Str(names[k])
  {
    if names != [] {
      TextsAt(names[1..]);
      assert forall k | 1 <= k < |names| :: names[k] == names[1..][k - 1];
    }
  }

  lemma ShapeKeysDiffer(i: Ident, suite: int, c: seq<Claim>, fatal: seq<string>)
    ensures Canonical.DistinctFields(ShapeFields(i, suite, c, fatal))
  {
  }

  lemma ShapeIsPlain(i: Ident, suite: int, c: Claims, fatal: seq<string>)
    ensures Canonical.Plain(Shape(i, suite, c, fatal))
  {
    hide Canonical.DistinctFields, ClaimFields, Texts, TextOf, ShapeFields;
    ClaimsArePlain(c);
    TextsArePlain(fatal);
    ShapeKeysDiffer(i, suite, c, fatal);
    var fields := ShapeFields(i, suite, c, fatal);
    forall f | f in fields ensures f.value == Undefined || Canonical.Plain(f.value) {
      var k :| 0 <= k < |fields| && fields[k] == f;
      PlainAt(i, suite, c, fatal, k);
    }
  }

  lemma PlainAt(i: Ident, suite: int, c: Claims, fatal: seq<string>, k: nat)
    requires k < |ShapeFields(i, suite, c, fatal)|
    requires Canonical.Plain(Obj(ClaimFields(c))) && Canonical.Plain(Arr(Texts(fatal)))
    ensures var v := ShapeFields(i, suite, c, fatal)[k].value; v == Undefined || Canonical.Plain(v)
  {
    hide ClaimFields, Texts, TextOf, Canonical.Plain;
    TextIsPlain(i.sdkPackage);
    TextIsPlain(i.sdkVersion);
    TextIsPlain(i.sdkIntegrity);
    TextIsPlain(i.authMode);
    TextIsPlain(i.topology);
    StringIsPlain(i.endpoint);
    StringIsPlain(i.provider);
    StringIsPlain(i.serverVersion);
    NumberIsPlain(suite);
  }

  lemma StringIsPlain(s: string)
    ensures Canonical.Plain(Str(s))
  {
  }

  lemma NumberIsPlain(i: int)
    ensures Canonical.Plain(Num(Integer(i)))
  {
  }

  lemma TextIsPlain(o: Option<string>)
    ensures TextOf(o) == Undefined || Canonical.Plain(TextOf(o))
  {
  }

  lemma ClaimsArePlain(c: Claims)
    ensures Canonical.Plain(Obj(ClaimFields(c)))
  {
    ClaimFieldsAt(c);
  }

  lemma TextsArePlain(names: seq<string>)
    ensures Canonical.Plain(Arr(Texts(names)))
  {
    TextsAt(names);
  }

  function DigestOf(i: Ident, suite: int, c: Claims, fatal: seq<string>): Digest {
    ShapeIsPlain(i, suite, c, fatal);
    Sha256(Canonical.Canonicalize(Shape(i, suite, c, fatal)))
  }

  // ---- What a digest seals -----------------------------------------------

  ghost predicate Alike(x: Value, y: Value) {
    if x == Undefined || y == Undefined then x == y else Canonical.Same(x, y)
  }

  /** Objects whose fields have the same keys in the same places. */
  lemma AlignedSame(f: seq<Field>, g: seq<Field>)
    requires |f| == |g| && Canonical.DistinctFields(f) && forall k | 0 <= k < |f| :: f[k].key == g[k].key
    ensures Canonical.Same(Obj(f), Obj(g)) <==> forall k | 0 <= k < |f| :: Alike(f[k].value, g[k].value)
  {
    Canonical.DefinedKeysMembers(f);
    Canonical.DefinedKeysMembers(g);
    if Canonical.Same(Obj(f), Obj(g)) {
      forall k | 0 <= k < |f| ensures Alike(f[k].value, g[k].value) { AlignedAt(f, g, k); }
    }
    if forall k | 0 <= k < |f| :: Alike(f[k].value, g[k].value) {
      forall key ensures Canonical.HasKey(f, key) <==> Canonical.HasKey(g, key) {
        if Canonical.HasKey(f, key) { AlignedHas(f, g, key); }
        if Canonical.HasKey(g, key) { AlignedHas(g, f, key); }
      }
    }
  }

  lemma AlignedHas(f: seq<Field>, g: seq<Field>, key: string)
    requires |f| == |g| && forall k | 0 <= k < |f| :: f[k].key == g[k].key
    requires forall k | 0 <= k < |f| :: f[k].value == Undefined <==> g[k].value == Undefined
    requires Canonical.HasKey(f, key)
    ensures Canonical.HasKey(g, key)
  {
    var x :| x in f && x.key == key && x.value != Undefined;
    var k :| 0 <= k < |f| && f[k] == x;
    assert g[k] in g;
  }

  lemma AlignedAt(f: seq<Field>, g: seq<Field>, k: nat)
    requires |f| == |g| && Canonical.DistinctFields(f) && forall k | 0 <= k < |f| :: f[k].key == g[k].key
    requires Canonical.Same(Obj(f), Obj(g)) && k < |f|
    ensures Alike(f[k].value, g[k].value)
  {
    Canonical.DefinedKeysMembers(f);
    Canonical.DefinedKeysMembers(g);
    var key := f[k].key;
    assert f[k] in f && g[k] in g;
    DefinedAt(f, k);
    DefinedAt(g, k);
  }

  lemma DefinedAt(f: seq<Field>, k: nat)
    requires Canonical.DistinctFields(f) && k < |f|
    ensures f[k].value != Undefined <==> Canonical.HasKey(f, f[k].key)
  {
    if Canonical.HasKey(f, f[k].key) {
      var y :| y in f && y.key == f[k].key && y.value != Undefined;
      var j :| 0 <= j < |f| && f[j] == y;
      assert j == k;
    }
    assert f[k] in f;
  }

  /** The same names claimed the same way. */
  ghost predicate SameClaims(a: Claims, b: Claims) { forall n :: Get(a, n) == Get(b, n) }

  predicate IsClaim(c: Claims, x: Field) { x.value.Bool? && Get(c, x.key) == Some(x.value.b) }

  /** The fields of an object are the claims. */
  ghost predicate Renders(f: seq<Field>, c: Claims) {
    && (forall x | x in f :: IsClaim(c, x))
    && (forall n | Get(c, n).Some? :: Field(n, Bool(Get(c, n).value)) in f)
  }

  lemma ClaimsRendered(c: Claims)
    ensures Renders(ClaimFields(c), c)
  {
    var f := ClaimFields(c);
    ClaimFieldsAt(c);
    forall x | x in f ensures IsClaim(c, x) {
      var k :| 0 <= k < |f| && f[k] == x;
      GetMeans(c, x.key);
    }
    forall n | Get(c, n).Some? ensures Field(n, Bool(Get(c, n).value)) in f {
      GetMeans(c, n);
      var k :| 0 <= k < |c| && c[k] == Claim(n, Get(c, n).value);
      assert f[k] in f;
    }
  }

  lemma RenderedKeys(f: seq<Field>, c: Claims, n: string)
    requires Renders(f, c)
    ensures n in Canonical.DefinedKeys(f) <==> Get(c, n).Some?
  {
    hide Get;
    Canonical.DefinedKeysMembers(f);
    if Get(c, n).Some? { assert Field(n, Bool(Get(c, n).value)) in f; }
  }

  lemma SameClaimFields(a: Claims, b: Claims)
    ensures Canonical.Same(Obj(ClaimFields(a)), Obj(ClaimFields(b))) <==> SameClaims(a, b)
  {
    hide Get, ClaimFields, IsClaim, Canonical.DefinedKeys;
    var f, g := ClaimFields(a), ClaimFields(b);
    ClaimsRendered(a);
    ClaimsRendered(b);
    forall n ensures n in Canonical.DefinedKeys(f) <==> Get(a, n).Some? { RenderedKeys(f, a, n); }
    forall n ensures n in Canonical.DefinedKeys(g) <==> Get(b, n).Some? { RenderedKeys(g, b, n); }
    if Canonical.Same(Obj(f), Obj(g)) {
      forall n ensures Get(a, n) == Get(b, n) {
        if Get(a, n).Some? {
          assert n in Canonical.DefinedKeys(f);
          var p, q := Get(a, n).value, Get(b, n).value;
          assert Field(n, Bool(p)) in f && Field(n, Bool(q)) in g;
          assert Canonical.Same(Bool(p), Bool(q));
        } else {
          assert n !in Canonical.DefinedKeys(g);
        }
      }
    }
    forall x, y | SameClaims(a, b) && x in f && y in g && x.key == y.key
      ensures x.value == y.value && x.value.Bool?
    {
      ClaimValues(a, b, x, y);
    }
  }

  lemma ClaimValues(a: Claims, b: Claims, x: Field, y: Field)
    requires SameClaims(a, b) && IsClaim(a, x) && IsClaim(b, y) && x.key == y.key
    ensures x.value == y.value && x.value.Bool?
  {
  }

  lemma SameTexts(a: seq<string>, b: seq<string>)
    ensures Canonical.Same(Arr(Texts(a)), Arr(Texts(b))) <==> a == b
  {
    TextsAt(a);
    TextsAt(b);
    if Canonical.Same(Arr(Texts(a)), Arr(Texts(b))) {
      forall k | 0 <= k < |a| ensures a[k] == b[k] {
        assert Canonical.Same(Texts(a)[k], Texts(b)[k]);
      }
    }
  }

  /** Equal digests: the same identification, suite, claims and fatal properties. */
  lemma DigestSeals(i: Ident, s: int, c: Claims, f: seq<string>, i': Ident, s': int, c': Claims, f': seq<string>)
    ensures DigestOf(i, s, c, f) == DigestOf(i', s', c', f') <==>
            i == i' && s == s' && SameClaims(c, c') && f == f'
  {
    hide Canonical.Plain, Canonical.Same, Canonical.DistinctFields, SameClaims, Canonical.Canonicalize;
    var x, y := ShapeFields(i, s, c, f), ShapeFields(i', s', c', f');
    ShapeIsPlain(i, s, c, f);
    ShapeIsPlain(i', s', c', f');
    Canonical.CanonicalizeIffSame(Obj(x), Obj(y));
    ShapeKeysDiffer(i, s, c, f);
    AlignedSame(x, y);
    ShapesAlike(i, s, c, f, i', s', c', f');
  }

  ghost predicate IdentsAlike(i: Ident, j: Ident) {
    && Alike(Str(i.endpoint), Str(j.endpoint)) && Alike(Str(i.provider), Str(j.provider))
    && Alike(Str(i.serverVersion), Str(j.serverVersion)) && Alike(TextOf(i.sdkPackage), TextOf(j.sdkPackage))
    && Alike(TextOf(i.sdkVersion), TextOf(j.sdkVersion)) && Alike(TextOf(i.sdkIntegrity), TextOf(j.sdkIntegrity))
    && Alike(TextOf(i.authMode), TextOf(j.authMode)) && Alike(TextOf(i.topology), TextOf(j.topology))
  }

  lemma ShapesAlike(i: Ident, s: int, c: Claims, f: seq<string>, i': Ident, s': int, c': Claims, f': seq<string>)
    ensures var x, y := ShapeFields(i, s, c, f), ShapeFields(i', s', c', f');
            (forall k | 0 <= k < |x| :: Alike(x[k].value, y[k].value)) <==>
            (i == i' && s == s' && SameClaims(c, c') && f == f')
  {
    hide ShapeFields, SameClaims, Alike, IdentsAlike, ClaimFields, Texts;
    ShapesUnrolled(i, s, c, f, i', s', c', f');
    IdentsEqual(i, i');
    AlikeRest(s, c, f, s', c', f');
  }

  lemma ShapesUnrolled(i: Ident, s: int, c: Claims, f: seq<string>, i': Ident, s': int, c': Claims, f': seq<string>)
    ensures var x, y := ShapeFields(i, s, c, f), ShapeFields(i', s', c', f');
            |x| == |y| && ((forall k | 0 <= k < |x| :: Alike(x[k].value, y[k].value)) <==>
            (IdentsAlike(i, i') && Alike(Num(Integer(s)), Num(Integer(s')))
             && Alike(Obj(ClaimFields(c)), Obj(ClaimFields(c'))) && Alike(Arr(Texts(f)), Arr(Texts(f')))))
  {
    hide ClaimFields, Texts, TextOf, Alike;
    var x, y := ShapeFields(i, s, c, f), ShapeFields(i', s', c', f');
    assert x[0].value == Str(i.endpoint) && x[1].value == Str(i.provider) && x[2].value == Str(i.serverVersion);
    assert x[3].value == TextOf(i.sdkPackage) && x[4].value == TextOf(i.sdkVersion);
    assert x[5].value == TextOf(i.sdkIntegrity) && x[6].value == TextOf(i.authMode) && x[7].value == TextOf(i.topology);
    assert x[8].value == Num(Integer(s)) && x[9].value == Obj(ClaimFields(c)) && x[10].value == Arr(Texts(f));
  }

  lemma IdentsEqual(i: Ident, j: Ident)
    ensures IdentsAlike(i, j) <==> i == j
  {
    hide TextOf, Alike;
    AlikeString(i.endpoint, j.endpoint);
    AlikeString(i.provider, j.provider);
    AlikeString(i.serverVersion, j.serverVersion);
    AlikeText(i.sdkPackage, j.sdkPackage);
    AlikeText(i.sdkVersion, j.sdkVersion);
    AlikeText(i.sdkIntegrity, j.sdkIntegrity);
    AlikeText(i.authMode, j.authMode);
    AlikeText(i.topology, j.topology);
  }

  lemma AlikeString(a: string, b: string)
    ensures Alike(Str(a), Str(b)) <==> a == b
  {
  }

  lemma AlikeText(a: Option<string>, b: Option<string>)
    ensures Alike(TextOf(a), TextOf(b)) <==> a == b
  {
  }

  lemma AlikeRest(s: int, c: Claims, f: seq<string>, s': int, c': Claims, f': seq<string>)
    ensures Alike(Num(Integer(s)), Num(Integer(s'))) <==> s == s'
    ensures Alike(Obj(ClaimFields(c)), Obj(ClaimFields(c'))) <==> SameClaims(c, c')
    ensures Alike(Arr(Texts(f)), Arr(Texts(f'))) <==> f == f'
  {
    hide SameClaims;
    SameClaimFields(c, c');
    SameTexts(f, f');
  }

  /** The sealed object has eleven fields, under these names. */
  lemma SealedFields(i: Ident, suite: int, c: seq<Claim>, fatal: seq<string>, f: Field)
    ensures f in ShapeFields(i, suite, c, fatal) <==>
            match f.key
            case "endpointIdentity" => f.value == Str(i.endpoint)
            case "provider" => f.value == Str(i.provider)
            case "serverVersion" => f.value == Str(i.serverVersion)
            case "sdkPackage" => f.value == TextOf(i.sdkPackage)
            case "sdkVersion" => f.value == TextOf(i.sdkVersion)
            case "sdkIntegrity" => f.value == TextOf(i.sdkIntegrity)
            case "authMode" => f.value == TextOf(i.authMode)
            case "topology" => f.value == TextOf(i.topology)
            case "suiteVersion" => f.value == Num(Integer(suite))
            case "capabilities" => f.value == Obj(ClaimFields(c))
            case "fatalProperties" => f.value == Arr(Texts(fatal))
            case _ => false
  {
    hide ClaimFields, Texts, TextOf;
  }

  // ---- The key of a verification run -------------------------------------

  function RunKeyFields(i: Ident, suite: int): seq<Field> {
    [Field("endpointIdentity", Str(i.endpoint)), Field("serverVersion", Str(i.serverVersion)),
     Field("sdkIntegrity", TextOf(i.sdkIntegrity)), Field("suiteVersion", Num(Integer(suite)))]
  }

  /** The object a run key is the digest of has four fields, under these names. */
  lemma KeyedFields(i: Ident, suite: int, f: Field)
    ensures f in RunKeyFields(i, suite) <==>
            match f.key
            case "endpointIdentity" => f.value == Str(i.endpoint)
            case "serverVersion" => f.value == Str(i.serverVersion)
            case "sdkIntegrity" => f.value == TextOf(i.sdkIntegrity)
            case "suiteVersion" => f.value == Num(Integer(suite))
            case _ => false
  {
    hide TextOf;
  }

  lemma RunKeyPlain(i: Ident, suite: int)
    ensures Canonical.DistinctFields(RunKeyFields(i, suite)) && Canonical.Plain(Obj(RunKeyFields(i, suite)))
  {
    var f := RunKeyFields(i, suite);
    assert forall k | 0 <= k < 4 :: f[k].value == Undefined || Canonical.Plain(f[k].value);
  }

  function RunKeyOf(i: Ident, suite: int): Digest {
    RunKeyPlain(i, suite);
    Sha256(Canonical.Canonicalize(Obj(RunKeyFields(i, suite))))
  }

  /** Two verifications have one key exactly when they are of one endpoint, server version, SDK build and suite. */
  lemma RunKeySeals(i: Ident, s: int, i': Ident, s': int)
    ensures RunKeyOf(i, s) == RunKeyOf(i', s') <==>
            i.endpoint == i'.endpoint && i.serverVersion == i'.serverVersion && i.sdkIntegrity == i'.sdkIntegrity && s == s'
  {
    hide Canonical.Plain, Canonical.Same, Canonical.DistinctFields, Canonical.Canonicalize, Alike, TextOf;
    var x, y := RunKeyFields(i, s), RunKeyFields(i', s');
    RunKeyPlain(i, s);
    RunKeyPlain(i', s');
    Canonical.CanonicalizeIffSame(Obj(x), Obj(y));
    AlignedSame(x, y);
    AlikeString(i.endpoint, i'.endpoint);
    AlikeString(i.serverVersion, i'.serverVersion);
    AlikeText(i.sdkIntegrity, i'.sdkIntegrity);
    AlikeRest(s, [], [], s', [], []);
    assert x[0].value == Str(i.endpoint) && x[1].value == Str(i.serverVersion);
    assert x[2].value == TextOf(i.sdkIntegrity) && x[3].value == Num(Integer(s));
  }

  // ---- Snapshots ---------------------------------------------------------

  datatype Status = Unverified | Verifying | Matching | Lessened | Unfit | Unavailable

  /** The statuses COMPATIBLE, DEGRADED and INCOMPATIBLE. */
  function StatusOf(v: Verdict): Status {
    match v
    case Compatible => Matching
    case Degraded => Lessened
    case Incompatible => Unfit
  }

  predicate Operational(s: Status) { s == Matching || s == Lessened }

  /** The SHA-256 of a digest and a run identifier. */
  datatype SnapshotId = SnapshotId(digest: Digest, runId: string)

  /** checkedAt is absent when its text is not a date. */
  datatype Snapshot = Snapshot(
    id: SnapshotId, runId: string, ident: Ident, suiteVersion: int, claims: Claims, fatal: seq<string>,
    status: Status, failureReasons: seq<string>, checkedAt: Option<int>, digest: Digest, staleAfterMs: int)

  predicate Within(s: string, most: nat) { 1 <= |s| <= most }
  predicate OptWithin(o: Option<string>, most: nat) { o.Some? ==> Within(o.value, most) }
  predicate Hex64(s: string) { |s| == 64 && forall c | c in s :: IsDigit(c) || 'a' <= c <= 'f' }

  predicate ReportOk(i: Ident) {
    && Within(i.provider, 64) && Within(i.serverVersion, 128)
    && OptWithin(i.sdkPackage, 128) && OptWithin(i.sdkVersion, 128)
    && (i.sdkIntegrity.Some? ==> Hex64(i.sdkIntegrity.value))
    && (i.authMode.Some? ==> i.authMode.value in ["server_secret", "oauth", "mtls"])
    && (i.topology.Some? ==> i.topology.value in ["hosted", "local", "shared"])
  }

  ghost predicate AllWithin(names: seq<string>, most: nat) { forall n | n in names :: Within(n, most) }

  ghost predicate SchemaOk(s: Snapshot) {
    && Within(s.ident.endpoint, 256) && ReportOk(s.ident) && s.suiteVersion == SUITE_VERSION
    && (forall c | c in s.claims :: Within(c.name, 64))
    && AllWithin(s.fatal, 64) && AllWithin(s.failureReasons, 200)
    && 26 <= |s.runId| <= 36 && s.staleAfterMs > 0
  }

  predicate Fresh(s: Snapshot, now: int) {
    s.checkedAt.Some? && 0 <= now - s.checkedAt.value <= s.staleAfterMs
  }

  /** isSnapshotFresh. */
  method IsSnapshotFresh(s: Snapshot, now: int) returns (recent: bool)
    ensures recent <==> Fresh(s, now)
  {
    if s.checkedAt.None? { return false; }
    var age := now - s.checkedAt.value;
    return age >= 0 && age <= s.staleAfterMs;
  }

  datatype Failure = SchemaInvalid | DigestMismatch | IdentityMismatch | StatusMismatch

  /** Nothing when the snapshot passes. */
  ghost function Integrity(s: Snapshot, endpoint: string): Option<Failure> {
    if !SchemaOk(s) then Some(SchemaInvalid)
    else if DigestOf(s.ident, s.suiteVersion, s.claims, s.fatal) != s.digest then Some(DigestMismatch)
    else if s.ident.endpoint != endpoint then Some(IdentityMismatch)
    else if StatusOf(Evaluate(s.claims, s.fatal).verdict) != s.status then Some(StatusMismatch)
    else None
  }

  /** A digest binds everything a decision rests on: no two accepted snapshots share it and differ in that. */
  lemma SealBinds(s: Snapshot, t: Snapshot, endpoint: string, other: string)
    requires Integrity(s, endpoint).None? && Integrity(t, other).None? && s.digest == t.digest
    ensures s.ident == t.ident && endpoint == other && SameClaims(s.claims, t.claims)
    ensures s.fatal == t.fatal && s.status == t.status
  {
    DigestSeals(s.ident, s.suiteVersion, s.claims, s.fatal, t.ident, t.suiteVersion, t.claims, t.fatal);
    SameVerdicts(s.claims, t.claims, s.fatal);
  }

  lemma SameVerdicts(a: Claims, b: Claims, fatal: seq<string>)
    requires SameClaims(a, b)
    ensures Evaluate(a, fatal).verdict == Evaluate(b, fatal).verdict
  {
    hide Evaluate, Known, Get;
    VerdictMeans(a, fatal);
    VerdictMeans(b, fatal);
  }

  /** An accepted operational snapshot has every mandatory capability. */
  lemma NoMandatoryMissing(s: Snapshot, endpoint: string)
    requires Integrity(s, endpoint).None? && Operational(s.status)
    ensures Missing(s.claims, MANDATORY) == [] && FATAL_TOOLS !in s.fatal && OnlyKnown(s.claims)
  {
    hide Known, Get;
    VerdictMeans(s.claims, s.fatal);
    MissingMeans(s.claims, MANDATORY);
  }

  // ---- Sealing -----------------------------------------------------------

  /** A provider: what it reports of itself, what it answers to each probe, whether it shows the fatal property. */
  datatype Channel = Channel(
    endpoint: string, provider: string, report: Option<Ident>, answers: seq<Answer>, detects: Option<bool>)

  predicate Complete(ch: Channel) { |ch.answers| == |SUITE| }

  /** The identification of a run; none when the report fails or is refused. */
  function Identified(ch: Channel): Option<Ident> {
    if ch.report.None? || !ReportOk(ch.report.value) || ch.report.value.provider != "trueforge"
       || ch.report.value.provider != ch.provider then None
    else Some(ch.report.value.(endpoint := ch.endpoint))
  }

  /** normalizeIdentification. */
  method NormalizeIdentification(ch: Channel) returns (i: Option<Ident>)
    ensures i == Identified(ch)
  {
    hide ReportOk;
    if ch.report.None? { return None; }
    var report := ch.report.value;
    var ok := CheckReport(report);
    if !ok || report.provider != "trueforge" || ch.provider != report.provider { return None; }
    return Some(report.(endpoint := ch.endpoint));
  }

  function Prefixed(prefix: string, names: seq<string>): seq<string> {
    if names == [] then [] else [prefix + names[0]] + Prefixed(prefix, names[1..])
  }

  function Reasons(failures: seq<string>, e: Evaluation): seq<string> {
    var all := failures + Prefixed("missing:", e.missingMandatory) + Prefixed("optional:", e.missingOptional)
               + e.fatalPresent + Prefixed("unknown:", e.unknown);
    all[..Min(64, |all|)]
  }

  method AddPrefixed(before: seq<string>, prefix: string, names: seq<string>) returns (all: seq<string>)
    ensures all == before + Prefixed(prefix, names)
  {
    all := before;
    for k := 0 to |names|
      invariant all + Prefixed(prefix, names[k..]) == before + Prefixed(prefix, names)
    {
      all := all + [prefix + names[k]];
      assert names[k..][1..] == names[k + 1..];
    }
  }

  /** What went wrong, at most 64 reasons of it. */
  method CollectReasons(failures: seq<string>, e: Evaluation) returns (reasons: seq<string>)
    ensures reasons == Reasons(failures, e)
  {
    hide Prefixed;
    var all := AddPrefixed(failures, "missing:", e.missingMandatory);
    all := AddPrefixed(all, "optional:", e.missingOptional);
    all := AddPrefixed(all + e.fatalPresent, "unknown:", e.unknown);
    assert all == failures + Prefixed("missing:", e.missingMandatory) + Prefixed("optional:", e.missingOptional)
                  + e.fatalPresent + Prefixed("unknown:", e.unknown);
    return if |all| > 64 then all[..64] else all;
  }

  function Sealed(ch: Channel, i: Ident, runId: string, now: int, ttl: int): Snapshot
    requires Complete(ch)
  {
    var claims, fatal := AfterProbes(SUITE, ch.answers), FatalFound(ch.detects);
    var e, digest := Evaluate(claims, fatal), DigestOf(i, SUITE_VERSION, claims, fatal);
    Snapshot(SnapshotId(digest, runId), runId, i, SUITE_VERSION, claims, fatal, StatusOf(e.verdict),
             Reasons(Failures(SUITE, ch.answers), e), Some(now), digest, ttl)
  }

  lemma {:induction false} PrefixedWithin(prefix: string, names: seq<string>)
    requires 1 <= |prefix| <= 20 && AllWithin(names, 64)
    ensures AllWithin(Prefixed(prefix, names), 200)
  {
    if names != [] {
      assert names == [names[0]] + names[1..] && names[0] in names;
      PrefixedWithin(prefix, names[1..]);
    }
  }

  lemma {:induction false} FailuresWithin(suite: seq<Probe>, answers: seq<Answer>)
    requires |suite| == |answers| && forall p | p in suite :: |p.id| <= 64
    ensures AllWithin(Failures(suite, answers), 200)
  {
    if suite != [] {
      var k := |suite| - 1;
      assert suite[k] in suite;
      FailuresWithin(suite[..k], answers[..k]);
      assert AllWithin(FailureOf(suite[k], answers[k]), 200);
    }
  }

  lemma {:induction false} MissingWithin(c: Claims, expected: seq<string>)
    requires AllWithin(expected, 64)
    ensures AllWithin(Missing(c, expected), 64)
  {
    if expected != [] {
      var front, last := expected[..|expected| - 1], expected[|expected| - 1];
      assert last in expected && forall n | n in front :: n in expected;
      MissingWithin(c, front);
    }
  }

  lemma {:induction false} UnknownWithin(c: seq<Claim>)
    requires forall x | x in c :: Within(x.name, 64)
    ensures AllWithin(UnknownNames(c), 64)
  {
    hide Known;
    if c != [] {
      assert c[|c| - 1] in c;
      UnknownWithin(c[..|c| - 1]);
    }
  }

  lemma ClaimNamesWithin(answers: seq<Answer>)
    requires |answers| == |SUITE|
    ensures forall x | x in AfterProbes(SUITE, answers) :: Within(x.name, 64)
  {
    hide AfterProbes, Owner, WellNamed;
    var c := AfterProbes(SUITE, answers);
    SuiteDisjoint();
    forall x | x in c ensures Within(x.name, 64) {
      GetMeans(c, x.name);
      KnownIsOwned(x.name);
      ProbesIsolated(SUITE, answers, x.name);
      if Known(x.name) { KnownWithin(x.name); } else { ListedWithin(answers, x.name); }
    }
  }

  lemma KnownWithin(name: string)
    requires Known(name)
    ensures Within(name, 64)
  {
  }

  lemma ListedWithin(answers: seq<Answer>, name: string)
    requires Listed(answers, name)
    ensures Within(name, 64)
  {
  }

  lemma MatrixWithin()
    ensures AllWithin(MANDATORY, 64) && AllWithin(OPTIONAL, 64)
  {
  }

  /** Every snapshot sealed within the configured bounds re-passes its own verification. */
  lemma SealedPasses(ch: Channel, i: Ident, runId: string, now: int, ttl: int)
    requires Complete(ch) && Identified(ch) == Some(i)
    ensures Integrity(Sealed(ch, i, runId, now, ttl), ch.endpoint) ==
            if Within(ch.endpoint, 256) && 26 <= |runId| <= 36 && ttl > 0 then None else Some(SchemaInvalid)
  {
    hide Evaluate, AfterProbes, Failures, DigestOf, ReportOk;
    var s := Sealed(ch, i, runId, now, ttl);
    var e := Evaluate(s.claims, s.fatal);
    ClaimNamesWithin(ch.answers);
    assert |SUITE| == 7 && forall p | p in SUITE :: |p.id| <= 64;
    FailuresWithin(SUITE, ch.answers);
    assert Within(FATAL_TOOLS, 64);
    assert i == ch.report.value.(endpoint := ch.endpoint) && ReportOk(i) by { SameReport(ch.report.value, ch.endpoint); }
    ReasonsWithin(s.claims, s.fatal, Failures(SUITE, ch.answers));
  }

  lemma SameReport(i: Ident, endpoint: string)
    ensures ReportOk(i.(endpoint := endpoint)) == ReportOk(i)
  {
  }

  lemma ReasonsWithin(c: Claims, fatal: seq<string>, failures: seq<string>)
    requires (forall x | x in c :: Within(x.name, 64)) && AllWithin(failures, 200) && AllWithin(fatal, 64)
    ensures AllWithin(Reasons(failures, Evaluate(c, fatal)), 200)
  {
    hide Missing, UnknownNames, FatalOnes, Known, Prefixed;
    MatrixWithin();
    MissingWithin(c, MANDATORY);
    MissingWithin(c, OPTIONAL);
    UnknownWithin(c);
    FatalWithin(fatal);
    var e := Evaluate(c, fatal);
    PrefixedWithin("missing:", e.missingMandatory);
    PrefixedWithin("optional:", e.missingOptional);
    PrefixedWithin("unknown:", e.unknown);
    var all := failures + Prefixed("missing:", e.missingMandatory) + Prefixed("optional:", e.missingOptional)
               + e.fatalPresent + Prefixed("unknown:", e.unknown);
    assert AllWithin(all, 200);
    assert forall n | n in all[..Min(64, |all|)] :: n in all;
  }

  lemma {:induction false} FatalWithin(fatal: seq<string>)
    requires AllWithin(fatal, 64)
    ensures AllWithin(FatalOnes(fatal), 64)
  {
    if fatal != [] {
      assert fatal == [fatal[0]] + fatal[1..] && fatal[0] in fatal;
      FatalWithin(fatal[1..]);
    }
  }

  // ---- The store, the verifier and the gate ------------------------------

  class InMemorySnapshotStore {
    var byEndpoint: map<string, Snapshot>

    constructor ()
      ensures byEndpoint == map[]
    {
      byEndpoint := map[];
    }

    method LoadCurrent(endpoint: string) returns (s: Option<Snapshot>)
      ensures s == if endpoint in byEndpoint then Some(byEndpoint[endpoint]) else None
    {
      s := if endpoint in byEndpoint then Some(byEndpoint[endpoint]) else None;
    }

    /** Supersedes what is there, unless that is the same snapshot. */
    method Record(s: Snapshot)
      modifies this
      ensures byEndpoint == RecordedIn(old(byEndpoint), s)
    {
      var endpoint := s.ident.endpoint;
      if endpoint in byEndpoint && byEndpoint[endpoint].id != s.id {
        byEndpoint := byEndpoint[endpoint := s];
        return;
      }
      if endpoint !in byEndpoint { byEndpoint := byEndpoint[endpoint := s]; }
    }
  }

  function RecordedIn(m: map<string, Snapshot>, s: Snapshot): map<string, Snapshot> {
    if s.ident.endpoint in m && m[s.ident.endpoint].id == s.id then m else m[s.ident.endpoint := s]
  }

  datatype Event =
    | IntegrityRejected(failure: Failure)
    | VerificationFailed
    | Verified(id: SnapshotId)
    | FoundIncompatible(id: SnapshotId)
    | Drift(id: SnapshotId, expected: Digest, observed: Digest)

  /** The store's snapshot is trusted as it is: accepted, operational and fresh. */
  ghost predicate Reusable(current: Option<Snapshot>, endpoint: string, now: int) {
    && current.Some? && Integrity(current.value, endpoint).None?
    && Operational(current.value.status) && Fresh(current.value, now)
  }

  datatype VerifyResult =
    | Reused(snapshot: Snapshot, verdict: Verdict, runKey: Digest, failures: seq<string>)
    | Recorded(snapshot: Snapshot, verdict: Verdict, runKey: Digest, failures: seq<string>)
    | Refused

  lemma AcceptedMeans(s: Snapshot, endpoint: string)
    requires Integrity(s, endpoint).None?
    ensures s.suiteVersion == SUITE_VERSION && s.status == StatusOf(Evaluate(s.claims, s.fatal).verdict)
  {
    hide Evaluate, DigestOf;
  }

  class ContractVerifier {
    const store: InMemorySnapshotStore
    const staleAfterMs: int

    constructor (store: InMemorySnapshotStore, staleAfterMs: int := 86_400_000)
      ensures this.store == store && this.staleAfterMs == staleAfterMs
    {
      this.store, this.staleAfterMs := store, staleAfterMs;
    }

    /** The probe suite, the verdict and the seal. */
    method Seal(ch: Channel, i: Ident, runId: string, now: int) returns (s: Snapshot, verdict: Verdict)
      requires Complete(ch)
      ensures s == Sealed(ch, i, runId, now, staleAfterMs) && verdict == Evaluate(s.claims, s.fatal).verdict
    {
      hide Evaluate, AfterProbes, Failures, DigestOf, Reasons;
      var claims, failures := RunProbes(ch.answers);
      var fatal := if ch.detects == Some(false) then [] else ["direct_mutative_github_tools"];
      var e := EvaluateCapabilities(claims, fatal);
      var digest := DigestOf(i, SUITE_VERSION, claims, fatal);
      var status := if e.verdict == Compatible then Matching else if e.verdict == Degraded then Lessened else Unfit;
      var reasons := CollectReasons(failures, e);
      s := Snapshot(SnapshotId(digest, runId), runId, i, SUITE_VERSION, claims, fatal,
                        status, reasons, Some(now), digest, staleAfterMs);
      verdict := e.verdict;
    }

    /** Refused stands for an exception: no identification, or a snapshot outside the configured bounds. */
    method Verify(force: bool, ch: Channel, now: int, runId: string) returns (r: VerifyResult, events: seq<Event>)
      requires Complete(ch)
      modifies store
      ensures var current := CurrentIn(old(store.byEndpoint), ch.endpoint);
              && (r.Reused? <==> !force && Reusable(current, ch.endpoint, now))
              && (r.Reused? <==>
                    && !force && current.Some? && Integrity(current.value, ch.endpoint).None?
                    && current.value.status in {Matching, Lessened}
                    && current.value.checkedAt.Some? && 0 <= now - current.value.checkedAt.value
                    && now <= current.value.checkedAt.value + current.value.staleAfterMs)
              && (r.Reused? ==> r.snapshot == current.value && store.byEndpoint == old(store.byEndpoint))
              && (r.Refused? ==> store.byEndpoint == old(store.byEndpoint))
      ensures r.Recorded? <==>
              && !(!force && Reusable(CurrentIn(old(store.byEndpoint), ch.endpoint), ch.endpoint, now))
              && Identified(ch).Some? && Within(ch.endpoint, 256) && 26 <= |runId| <= 36 && staleAfterMs > 0
      ensures r.Recorded? ==>
              && r.snapshot == Sealed(ch, Identified(ch).value, runId, now, staleAfterMs)
              && store.byEndpoint == RecordedIn(old(store.byEndpoint), r.snapshot)
              && Integrity(r.snapshot, ch.endpoint).None?
      ensures var current := CurrentIn(old(store.byEndpoint), ch.endpoint);
              var failure := if current.None? then None else Integrity(current.value, ch.endpoint);
              events == (if failure.Some? then [IntegrityRejected(failure.value)] else []) +
                        (match r
                         case Reused(_, _, _, _) => []
                         case Recorded(sealed, _, _, _) =>
                           [if sealed.status == Unfit then FoundIncompatible(sealed.id) else Verified(sealed.id)]
                         case Refused => if Identified(ch).None? then [VerificationFailed] else [])
      ensures !r.Refused? ==>
                && r.verdict == Evaluate(r.snapshot.claims, r.snapshot.fatal).verdict
                && r.runKey == RunKeyOf(r.snapshot.ident, SUITE_VERSION) && r.failures == r.snapshot.failureReasons
    {
      hide Integrity, Evaluate, AfterProbes, Failures, DigestOf, Reasons, ReportOk, SchemaOk, RunKeyOf;
      events := [];
      var current := store.LoadCurrent(ch.endpoint);
      if current.Some? {
        var failure := VerifySnapshotIntegrity(current.value, ch.endpoint);
        var recent := IsSnapshotFresh(current.value, now);
        if !force && failure.None? && (current.value.status == Matching || current.value.status == Lessened) && recent {
          var verdict := if current.value.status == Matching then Compatible else Degraded;
          AcceptedMeans(current.value, ch.endpoint);
          return Reused(current.value, verdict, RunKeyOf(current.value.ident, current.value.suiteVersion),
                        current.value.failureReasons), events;
        }
        if failure.Some? { events := events + [IntegrityRejected(failure.value)]; }
      }
      var identification := NormalizeIdentification(ch);
      if identification.None? { return Refused, events + [VerificationFailed]; }
      var i := identification.value;
      var s, verdict := Seal(ch, i, runId, now);
      SealedPasses(ch, i, runId, now, staleAfterMs);
      var failed := VerifySnapshotIntegrity(s, ch.endpoint);
      if failed == Some(SchemaInvalid) { return Refused, events; }
      store.Record(s);
      events := events + [if s.status == Unfit then FoundIncompatible(s.id) else Verified(s.id)];
      return Recorded(s, verdict, RunKeyOf(i, SUITE_VERSION), s.failureReasons), events;
    }
  }

  function CurrentIn(m: map<string, Snapshot>, endpoint: string): Option<Snapshot> {
    if endpoint in m then Some(m[endpoint]) else None
  }

  method VerifySnapshotIntegrity(s: Snapshot, endpoint: string) returns (failure: Option<Failure>)
    ensures failure == Integrity(s, endpoint)
  {
    hide SchemaOk, DigestOf, Evaluate;
    var ok := CheckSchema(s);
    if !ok { return Some(SchemaInvalid); }
    if DigestOf(s.ident, s.suiteVersion, s.claims, s.fatal) != s.digest { return Some(DigestMismatch); }
    if s.ident.endpoint != endpoint { return Some(IdentityMismatch); }
    var e := EvaluateCapabilities(s.claims, s.fatal);
    if StatusOf(e.verdict) != s.status { return Some(StatusMismatch); }
    return None;
  }

  /** The parsing of the schema. */
  method CheckSchema(s: Snapshot) returns (ok: bool)
    ensures ok <==> SchemaOk(s)
  {
    hide ReportOk;
    var reported := CheckReport(s.ident);
    ok := reported && 1 <= |s.ident.endpoint| <= 256 && s.suiteVersion == 1
          && (forall c | c in s.claims :: 1 <= |c.name| <= 64)
          && (forall n | n in s.fatal :: 1 <= |n| <= 64) && (forall n | n in s.failureReasons :: 1 <= |n| <= 200)
          && |s.runId| >= 26 && |s.runId| <= 36 && s.staleAfterMs >= 1;
  }

  method CheckReport(i: Ident) returns (ok: bool)
    ensures ok <==> ReportOk(i)
  {
    if i.provider == "" || |i.provider| > 64 || i.serverVersion == "" || |i.serverVersion| > 128 { return false; }
    if i.sdkPackage.Some? && !(1 <= |i.sdkPackage.value| <= 128) { return false; }
    if i.sdkVersion.Some? && !(1 <= |i.sdkVersion.value| <= 128) { return false; }
    if i.sdkIntegrity.Some? {
      var h := i.sdkIntegrity.value;
      if |h| != 64 || exists c | c in h :: !('0' <= c <= '9' || 'a' <= c <= 'f') { return false; }
    }
    if i.authMode.Some? && i.authMode.value !in {"server_secret", "oauth", "mtls"} { return false; }
    return i.topology.Some? ==> i.topology.value in {"hosted", "local", "shared"};
  }

  /** The answer of a live identification, when one is asked for. */
  datatype Live = NotAsked | Failed | Answered(ident: Ident)

  datatype Readiness = Readiness(
    ready: bool, status: Status, driftDetected: bool, missingMandatory: seq<string>, missingOptional: seq<string>)

  method Preflight(store: InMemorySnapshotStore, endpoint: string, now: int, live: Live)
    returns (r: Readiness, events: seq<Event>)
    ensures var current := CurrentIn(store.byEndpoint, endpoint);
            && (r.ready <==> Reusable(current, endpoint, now)
                             && (live.NotAsked? || live == Answered(current.value.ident)))
            && (r.ready <==>
                  && current.Some? && Integrity(current.value, endpoint).None?
                  && current.value.status in {Matching, Lessened}
                  && current.value.checkedAt.Some? && 0 <= now - current.value.checkedAt.value
                  && now <= current.value.checkedAt.value + current.value.staleAfterMs
                  && (live.NotAsked? || live == Answered(current.value.ident)))
            && (r.driftDetected <==> Reusable(current, endpoint, now) && !r.ready)
            && (r.ready ==> r.missingMandatory == [] && r.status == current.value.status)
            && (events != [] <==> r.driftDetected)
            && (events != [] ==> |events| == 1 && events[0].Drift? && events[0].expected == current.value.digest
                                 && events[0].observed != events[0].expected)
    ensures var current := CurrentIn(store.byEndpoint, endpoint);
            current.Some? ==> r.missingMandatory == Missing(current.value.claims, MANDATORY)
                              && r.missingOptional == Missing(current.value.claims, OPTIONAL)
  {
    hide Evaluate, Missing, SchemaOk, DigestOf, Integrity;
    var current := store.LoadCurrent(endpoint);
    if current.None? { return Readiness(false, Unverified, false, MANDATORY, OPTIONAL), []; }
    var s := current.value;
    var mandatory := MissingNames(s.claims, MANDATORY);
    var optional := MissingNames(s.claims, OPTIONAL);
    var blocked := Readiness(false, s.status, false, mandatory, optional);
    var failure := VerifySnapshotIntegrity(s, endpoint);
    if failure.Some? { return blocked, []; }
    if s.status != Matching && s.status != Lessened { return blocked, []; }
    var recent := IsSnapshotFresh(s, now);
    if !recent { return blocked, []; }
    NoMandatoryMissing(s, endpoint);
    if |mandatory| > 0 { return blocked, []; }
    var drift, observed := false, s.digest;
    match live {
      case NotAsked =>
      case Failed => drift, observed := true, Zeros;
      case Answered(i) =>
        observed := DigestOf(i, s.suiteVersion, s.claims, s.fatal);
        drift := s.digest != observed;
    }
    DriftMeans(s, endpoint, live);
    if drift {
      return Readiness(false, s.status, true, mandatory, optional), [Drift(s.id, s.digest, observed)];
    }
    return Readiness(true, s.status, false, [], optional), [];
  }

  /** A live identification is a drift exactly when it differs from the sealed one. */
  lemma DriftMeans(s: Snapshot, endpoint: string, live: Live)
    requires Integrity(s, endpoint).None?
    ensures s.digest != Zeros
    ensures live.Answered? ==>
              (DigestOf(live.ident, s.suiteVersion, s.claims, s.fatal) == s.digest <==> live.ident == s.ident)
  {
    if live.Answered? {
      DigestSeals(s.ident, s.suiteVersion, s.claims, s.fatal, live.ident, s.suiteVersion, s.claims, s.fatal);
    }
  }

  /** What the provider has to answer for a verification to make it operational. */
  ghost predicate Satisfies(ch: Channel)
    requires Complete(ch)
  {
    ch.detects == Some(false) && ConfirmsCore(ch.answers) && forall n | Listed(ch.answers, n) :: Known(n)
  }

  /**
   * A verification followed by the gate, at any later time. The store then holds the snapshot
   * just sealed, and the gate can rely on it exactly when the provider's answers make it
   * operational and no more than its time to live has passed; unless the store held a
   * snapshot of the same id, which it keeps and which is judged by its own times.
   */
  lemma VerifiedThenReady(
    m: map<string, Snapshot>, ch: Channel, i: Ident, runId: string, now: int, later: int, ttl: int)
    requires Complete(ch) && Identified(ch) == Some(i)
    requires Within(ch.endpoint, 256) && 26 <= |runId| <= 36 && ttl > 0
    ensures var s := Sealed(ch, i, runId, now, ttl); var current := CurrentIn(RecordedIn(m, s), ch.endpoint);
            && (CurrentIn(m, ch.endpoint).None? || m[ch.endpoint].id != s.id ==>
                  current == Some(s)
                  && (Reusable(current, ch.endpoint, later) <==> Satisfies(ch) && 0 <= later - now <= ttl))
            && (CurrentIn(m, ch.endpoint).Some? && m[ch.endpoint].id == s.id ==>
                  current == Some(m[ch.endpoint])
                  && (m[ch.endpoint].digest == s.digest && Integrity(m[ch.endpoint], ch.endpoint).None? ==>
                        (Reusable(current, ch.endpoint, later) <==>
                          && Satisfies(ch) && m[ch.endpoint].checkedAt.Some?
                          && 0 <= later - m[ch.endpoint].checkedAt.value <= m[ch.endpoint].staleAfterMs)))
  {
    hide Evaluate, Integrity, Vouches, Lists, Known, Owner, AfterProbes, DigestOf;
    var s := Sealed(ch, i, runId, now, ttl);
    SealedPasses(ch, i, runId, now, ttl);
    OperationalExactlyWhen(ch.answers, ch.detects);
    assert s.ident.endpoint == ch.endpoint;
    if ch.endpoint in m && m[ch.endpoint].digest == s.digest && Integrity(m[ch.endpoint], ch.endpoint).None? {
      SealBinds(m[ch.endpoint], s, ch.endpoint, ch.endpoint);
    }
  }
}
