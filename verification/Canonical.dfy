/**
 * The canonical text a contract digest is taken over (packages/agent/src/snapshot.ts):
 * object keys in the order of section 3.2.3 of RFC 8785, undefined fields left out.
 */
module Canonical {
  import opened Basics
  import opened Json

  // ---- The order of keys -------------------------------------------------

  /**
   * The place of a character in the order of UTF-16 code units: characters beyond the
   * basic plane start with a surrogate (0xD800 to 0xDFFF), below 0xE000.
   */
  function Rank(c: char): int {
    if 0xE000 <= c as int < 0x1_0000 then c as int + 0x20_0000 else c as int
  }

  /** a < b on strings. */
  predicate Less(a: string, b: string)
    decreases |a|
  {
    b != "" &&
    (a == "" || (if a[0] == b[0] then Less(a[1..], b[1..]) else Rank(a[0]) < Rank(b[0])))
  }

  lemma {:induction false} LessTotal(a: string, b: string)
    ensures a == b || Less(a, b) || Less(b, a)
    ensures Less(a, b) ==> a != b && !Less(b, a)
    decreases |a|
  {
    if a != "" && b != "" && a[0] == b[0] {
      LessTotal(a[1..], b[1..]);
      assert a == [a[0]] + a[1..] && b == [b[0]] + b[1..];
    }
  }

  lemma {:induction false} LessTransitive(a: string, b: string, c: string)
    requires Less(a, b) && Less(b, c)
    ensures Less(a, c)
    decreases |a|
  {
    if a != "" && a[0] == b[0] && b[0] == c[0] {
      LessTransitive(a[1..], b[1..], c[1..]);
    }
  }

  /** The UTF-16 code units of a character and of a text. */
  function Units(c: char): (u: seq<int>)
    ensures |u| in {1, 2}
  {
    var n := c as int;
    if n < 0x1_0000 then [n] else [0xD800 + (n - 0x1_0000) / 0x400, 0xDC00 + (n - 0x1_0000) % 0x400]
  }

  function Utf16(s: string): seq<int> { if s == "" then [] else Units(s[0]) + Utf16(s[1..]) }

  predicate UnitsLess(u: seq<int>, v: seq<int>) {
    v != [] && (u == [] || u[0] < v[0] || (u[0] == v[0] && UnitsLess(u[1..], v[1..])))
  }

  /** The order of keys is that of their UTF-16 code units, as section 3.2.3 of RFC 8785 asks. */
  lemma {:induction false} LessIsUtf16Order(a: string, b: string)
    ensures Less(a, b) <==> UnitsLess(Utf16(a), Utf16(b))
    decreases |a|
  {
    if a != "" && b != "" {
      if a[0] == b[0] {
        LessIsUtf16Order(a[1..], b[1..]);
        SameHead(Units(a[0]), Utf16(a[1..]), Utf16(b[1..]));
      } else {
        UnitsByRank(a[0], b[0], Utf16(a[1..]), Utf16(b[1..]));
      }
    }
  }

  lemma SameHead(u: seq<int>, x: seq<int>, y: seq<int>)
    requires |u| in {1, 2}
    ensures UnitsLess(u + x, u + y) <==> UnitsLess(x, y)
  {
    assert (u + x)[1..] == u[1..] + x && (u + y)[1..] == u[1..] + y;
    if |u| == 2 {
      assert (u[1..] + x)[1..] == x && (u[1..] + y)[1..] == y;
    } else {
      assert u[1..] + x == x && u[1..] + y == y;
    }
  }

  lemma UnitsByRank(a: char, b: char, x: seq<int>, y: seq<int>)
    requires a != b
    ensures UnitsLess(Units(a) + x, Units(b) + y) <==> Rank(a) < Rank(b)
  {
    var u, v := Units(a) + x, Units(b) + y;
    if u[0] == v[0] {
      assert u[1..][0] == Units(a)[1] && v[1..][0] == Units(b)[1];
      SplitUnits(a, b);
    } else if a as int >= 0x1_0000 && b as int >= 0x1_0000 {
      SplitUnits(a, b);
    }
  }

  /** Beyond the basic plane, the pair of surrogates rises with the character. */
  lemma SplitUnits(a: char, b: char)
    requires a as int >= 0x1_0000 && b as int >= 0x1_0000 && a != b
    ensures var u, v := Units(a), Units(b);
            a < b <==> u[0] < v[0] || (u[0] == v[0] && u[1] < v[1])
    ensures Units(a)[0] == Units(b)[0] ==> Units(a)[1] != Units(b)[1]
  {
    var m, n := a as int - 0x1_0000, b as int - 0x1_0000;
    assert m == m / 0x400 * 0x400 + m % 0x400 && n == n / 0x400 * 0x400 + n % 0x400;
  }

  predicate Ascending(keys: seq<string>) {
    forall i, j | 0 <= i < j < |keys| :: Less(keys[i], keys[j])
  }

  predicate Distinct(keys: seq<string>) {
    forall i, j | 0 <= i < j < |keys| :: keys[i] != keys[j]
  }

  function InsertKey(key: string, keys: seq<string>): seq<string> {
    if keys == [] || Less(key, keys[0]) then [key] + keys
    else [keys[0]] + InsertKey(key, keys[1..])
  }

  function SortKeys(keys: seq<string>): seq<string> {
    if keys == [] then [] else InsertKey(keys[0], SortKeys(keys[1..]))
  }

  lemma {:induction false} InsertKeyMembers(key: string, keys: seq<string>)
    ensures forall k :: k in InsertKey(key, keys) <==> k == key || k in keys
  {
    if keys != [] && !Less(key, keys[0]) {
      InsertKeyMembers(key, keys[1..]);
      assert keys == [keys[0]] + keys[1..];
    }
  }

  lemma {:induction false} InsertKeyAscending(key: string, keys: seq<string>)
    requires Ascending(keys) && key !in keys
    ensures Ascending(InsertKey(key, keys))
  {
    if keys == [] {
    } else if Less(key, keys[0]) {
      forall j | 0 <= j < |keys| ensures Less(key, keys[j]) {
        if j > 0 { LessTransitive(key, keys[0], keys[j]); }
      }
    } else {
      LessTotal(key, keys[0]);
      InsertKeyAscending(key, keys[1..]);
      InsertKeyMembers(key, keys[1..]);
      var tail := InsertKey(key, keys[1..]);
      forall j | 0 <= j < |tail| ensures Less(keys[0], tail[j]) {
        assert tail[j] in tail;
      }
    }
  }

  lemma {:induction false} SortKeysSorts(keys: seq<string>)
    ensures forall k :: k in SortKeys(keys) <==> k in keys
    ensures Distinct(keys) ==> Ascending(SortKeys(keys))
  {
    if keys != [] {
      SortKeysSorts(keys[1..]);
      InsertKeyMembers(keys[0], SortKeys(keys[1..]));
      assert keys == [keys[0]] + keys[1..];
      if Distinct(keys) {
        assert keys[0] !in keys[1..];
        InsertKeyAscending(keys[0], SortKeys(keys[1..]));
      }
    }
  }

  /** An ascending list is determined by its members. */
  lemma {:induction false} AscendingUnique(a: seq<string>, b: seq<string>)
    requires Ascending(a) && Ascending(b)
    requires forall k :: k in a <==> k in b
    ensures a == b
  {
    assert a == [] <==> b == [] by {
      assert a != [] ==> a[0] in b;
      assert b != [] ==> b[0] in a;
    }
    if a != [] {
      if a[0] != b[0] {
        assert a[0] in b && b[0] in a;
        LessTotal(a[0], b[0]);
      }
      forall k | k in a[1..] ensures k in b[1..] {
        NotFirst(a, k);
      }
      forall k | k in b[1..] ensures k in a[1..] {
        NotFirst(b, k);
      }
      AscendingUnique(a[1..], b[1..]);
      assert a == [a[0]] + a[1..] && b == [b[0]] + b[1..];
    }
  }

  lemma NotFirst(a: seq<string>, k: string)
    requires a != [] && Ascending(a) && k in a[1..]
    ensures k in a && k != a[0]
  {
    LessTotal(a[0], k);
  }

  // ---- The values a digest is taken over ---------------------------------

  predicate HasKey(fields: seq<Field>, key: string) {
    exists f | f in fields :: f.key == key && f.value != Undefined
  }

  /** The field of that name; an object has at most one. */
  function Lookup(fields: seq<Field>, key: string): (v: Value)
    ensures HasKey(fields, key) ==> v != Undefined && Field(key, v) in fields
  {
    if fields == [] then Undefined
    else if fields[0].key == key && fields[0].value != Undefined then fields[0].value
    else Lookup(fields[1..], key)
  }

  function DefinedKeys(fields: seq<Field>): seq<string> {
    if fields == [] then []
    else (if fields[0].value == Undefined then [] else [fields[0].key]) + DefinedKeys(fields[1..])
  }

  predicate DistinctFields(fields: seq<Field>) {
    forall i, j | 0 <= i < j < |fields| :: fields[i].key != fields[j].key
  }

  /**
   * What the caller may pass: undefined only as the value of a field, finite numbers, and
   * (as in every object) no key twice.
   */
  predicate Plain(v: Value) {
    match v
    case Undefined => false
    case Num(n) => ValidNumber(n)
    case Arr(items) => forall x | x in items :: Plain(x)
    case Obj(fields) =>
      DistinctFields(fields) && forall f | f in fields :: f.value == Undefined || Plain(f.value)
    case _ => true
  }

  lemma {:induction false} DefinedKeysMembers(fields: seq<Field>)
    ensures forall k :: k in DefinedKeys(fields) <==> HasKey(fields, k)
  {
    if fields != [] {
      DefinedKeysMembers(fields[1..]);
      assert fields == [fields[0]] + fields[1..];
    }
  }

  lemma {:induction false} DefinedKeysDistinct(fields: seq<Field>)
    requires DistinctFields(fields)
    ensures Distinct(DefinedKeys(fields))
  {
    if fields != [] {
      DefinedKeysDistinct(fields[1..]);
      DefinedKeysMembers(fields[1..]);
      assert !HasKey(fields[1..], fields[0].key);
      assert forall k | k in DefinedKeys(fields[1..]) :: k != fields[0].key;
    }
  }

  /** Object.keys, filtered and sorted. */
  function CanonicalKeys(fields: seq<Field>): (keys: seq<string>)
  {
    SortKeys(DefinedKeys(fields))
  }

  lemma CanonicalKeysMembers(fields: seq<Field>)
    ensures forall k :: k in CanonicalKeys(fields) <==> HasKey(fields, k)
    ensures DistinctFields(fields) ==> Ascending(CanonicalKeys(fields))
  {
    SortKeysSorts(DefinedKeys(fields));
    DefinedKeysMembers(fields);
    if DistinctFields(fields) { DefinedKeysDistinct(fields); }
  }

  // ---- canonicalize ------------------------------------------------------

  function Canonicalize(v: Value): string
    requires Plain(v)
    decreases v, 1, 0
  {
    if v.Arr? then "[" + CanonicalItems(v.items) + "]"
    else if v.Obj? then
      CanonicalKeysMembers(v.fields);
      "{" + CanonicalFields(v, CanonicalKeys(v.fields)) + "}"
    else Print(v)
  }

  function CanonicalItems(items: seq<Value>): string
    requires forall x | x in items :: Plain(x)
    decreases items, 0, 0
  {
    if items == [] then ""
    else Canonicalize(items[0]) + (if |items| == 1 then "" else "," + CanonicalItems(items[1..]))
  }

  function CanonicalFields(v: Value, keys: seq<string>): string
    requires v.Obj? && Plain(v) && forall k | k in keys :: HasKey(v.fields, k)
    decreases v, 0, |keys|
  {
    if keys == [] then ""
    else
      var x := Lookup(v.fields, keys[0]);
      assert Field(keys[0], x) in v.fields;
      Quote(keys[0]) + ":" + Canonicalize(x) +
      (if |keys| == 1 then "" else "," + CanonicalFields(v, keys[1..]))
  }

  // ---- Equality up to key order and undefined fields ---------------------

  predicate Same(v: Value, w: Value)
    decreases v
  {
    match (v, w)
    case (Arr(a), Arr(b)) => |a| == |b| && forall i | 0 <= i < |a| :: Same(a[i], b[i])
    case (Obj(f), Obj(g)) =>
      && (forall k | k in DefinedKeys(f) :: k in DefinedKeys(g))
      && (forall k | k in DefinedKeys(g) :: k in DefinedKeys(f))
      && (forall x, y | x in f && y in g && x.key == y.key && x.value != Undefined && y.value != Undefined
            :: Same(x.value, y.value))
    case _ => v == w
  }

  /** The value with its keys sorted and its undefined fields dropped, at every depth. */
  function Norm(v: Value): (r: Value)
    requires Plain(v)
    decreases v, 1, 0
  {
    match v
    case Arr(items) => Arr(NormItems(items))
    case Obj(fields) =>
      CanonicalKeysMembers(fields);
      Obj(NormFields(v, CanonicalKeys(fields)))
    case _ => v
  }

  function NormItems(items: seq<Value>): (r: seq<Value>)
    requires forall x | x in items :: Plain(x)
    ensures |r| == |items| && forall i | 0 <= i < |items| :: r[i] == Norm(items[i])
    decreases items, 0, 0
  {
    if items == [] then [] else [Norm(items[0])] + NormItems(items[1..])
  }

  function NormFields(v: Value, keys: seq<string>): (r: seq<Field>)
    requires v.Obj? && Plain(v) && forall k | k in keys :: HasKey(v.fields, k)
    ensures |r| == |keys|
    ensures forall i | 0 <= i < |keys| ::
      var x := Lookup(v.fields, keys[i]);
      Plain(x) && r[i] == Field(keys[i], Norm(x))
    decreases v, 0, |keys|
  {
    if keys == [] then []
    else
      var x := Lookup(v.fields, keys[0]);
      assert Field(keys[0], x) in v.fields;
      [Field(keys[0], Norm(x))] + NormFields(v, keys[1..])
  }

  // ---- Canonical text is the JSON text of the normal form ----------------

  lemma {:induction false} CanonicalizePrints(v: Value)
    requires Plain(v)
    ensures Clean(Norm(v)) && Canonicalize(v) == Print(Norm(v))
    decreases v, 1, 0
  {
    match v
    case Arr(items) => CanonicalItemsPrint(items);
    case Obj(fields) =>
      CanonicalKeysMembers(fields);
      CanonicalFieldsPrint(v, CanonicalKeys(fields));
    case _ =>
  }

  lemma {:induction false} CanonicalItemsPrint(items: seq<Value>)
    requires forall x | x in items :: Plain(x)
    ensures forall x | x in NormItems(items) :: Clean(x)
    ensures CanonicalItems(items) == PrintItems(NormItems(items))
    decreases items, 0, 0
  {
    if items != [] {
      CanonicalizePrints(items[0]);
      CanonicalItemsPrint(items[1..]);
      assert NormItems(items)[1..] == NormItems(items[1..]);
    }
  }

  lemma {:induction false} CanonicalFieldsPrint(v: Value, keys: seq<string>)
    requires v.Obj? && Plain(v) && forall k | k in keys :: HasKey(v.fields, k)
    ensures forall f | f in NormFields(v, keys) :: Clean(f.value)
    ensures CanonicalFields(v, keys) == PrintFields(NormFields(v, keys))
    decreases v, 0, |keys|
  {
    if keys != [] {
      var x := Lookup(v.fields, keys[0]);
      assert Field(keys[0], x) in v.fields;
      CanonicalizePrints(x);
      CanonicalFieldsPrint(v, keys[1..]);
      assert NormFields(v, keys)[1..] == NormFields(v, keys[1..]);
    }
  }

  // ---- Equal normal forms are equal values -------------------------------

  lemma LookupOnly(fields: seq<Field>, f: Field)
    requires DistinctFields(fields) && f in fields && f.value != Undefined
    ensures HasKey(fields, f.key) && Lookup(fields, f.key) == f.value
  {
    assert Field(f.key, Lookup(fields, f.key)) in fields;
  }

  lemma {:induction false} NormSame(v: Value, w: Value)
    requires Plain(v) && Plain(w)
    ensures Norm(v) == Norm(w) <==> Same(v, w)
    decreases v, 1
  {
    if v.Arr? && w.Arr? {
      forall i | 0 <= i < |v.items| && i < |w.items|
        ensures Norm(v.items[i]) == Norm(w.items[i]) <==> Same(v.items[i], w.items[i])
      {
        NormSame(v.items[i], w.items[i]);
      }
      if Same(v, w) { assert NormItems(v.items) == NormItems(w.items); }
    } else if v.Obj? && w.Obj? {
      if Norm(v) == Norm(w) { NormObjectsEqual(v, w); }
      if Same(v, w) { SameObjectsNorm(v, w); }
    }
  }

  lemma {:induction false} NormObjectsEqual(v: Value, w: Value)
    requires v.Obj? && w.Obj? && Plain(v) && Plain(w) && Norm(v) == Norm(w)
    ensures Same(v, w)
    decreases v, 0
  {
    var f, g := v.fields, w.fields;
    var ks, ls := CanonicalKeys(f), CanonicalKeys(g);
    CanonicalKeysMembers(f);
    CanonicalKeysMembers(g);
    var nf, ng := NormFields(v, ks), NormFields(w, ls);
    assert nf == ng;
    assert ks == ls by {
      forall i | 0 <= i < |ks| ensures ks[i] == ls[i] {
        assert nf[i].key == ks[i] && ng[i].key == ls[i];
      }
    }
    DefinedKeysMembers(f);
    DefinedKeysMembers(g);
    forall x, y | x in f && y in g && x.key == y.key && x.value != Undefined && y.value != Undefined
      ensures Same(x.value, y.value)
    {
      LookupOnly(f, x);
      LookupOnly(g, y);
      assert x.key in ks;
      var i :| 0 <= i < |ks| && ks[i] == x.key;
      assert nf[i] == Field(x.key, Norm(x.value)) && ng[i] == Field(x.key, Norm(y.value));
      NormSame(x.value, y.value);
    }
  }

  lemma {:induction false} SameObjectsNorm(v: Value, w: Value)
    requires v.Obj? && w.Obj? && Plain(v) && Plain(w) && Same(v, w)
    ensures Norm(v) == Norm(w)
    decreases v, 0
  {
    var f, g := v.fields, w.fields;
    var ks, ls := CanonicalKeys(f), CanonicalKeys(g);
    CanonicalKeysMembers(f);
    CanonicalKeysMembers(g);
    DefinedKeysMembers(f);
    DefinedKeysMembers(g);
    AscendingUnique(ks, ls);
    var nf, ng := NormFields(v, ks), NormFields(w, ls);
    forall i | 0 <= i < |ks| ensures nf[i] == ng[i] {
      var x, y := Lookup(f, ks[i]), Lookup(g, ks[i]);
      assert ks[i] in ks;
      assert Field(ks[i], x) in f && Field(ks[i], y) in g;
      NormSame(x, y);
    }
  }

  /**
   * The canonical text decides equality: two values print the same exactly when they are
   * equal once the order of keys and undefined fields are disregarded.
   */
  lemma CanonicalizeIffSame(v: Value, w: Value)
    requires Plain(v) && Plain(w)
    ensures Canonicalize(v) == Canonicalize(w) <==> Same(v, w)
  {
    CanonicalizePrints(v);
    CanonicalizePrints(w);
    PrintInjective(Norm(v), Norm(w));
    NormSame(v, w);
  }
}
