/**
 * JSON values and the text JSON.stringify writes for them (section 7 of RFC 8259),
 * with a reader for that text.  Objects keep their fields in insertion order.
 */
module Json {
  import opened Basics

  /** A finite number: an integer, or the text of one with a fraction or an exponent. */
  datatype Number = Integer(i: int) | Fraction(text: string)

  datatype Field = Field(key: string, value: Value)

  datatype Value =
    | Undefined
    | Null
    | Bool(b: bool)
    | Num(num: Number)
    | Str(s: string)
    | Arr(items: seq<Value>)
    | Obj(fields: seq<Field>)

  // ---- Well-formedness ---------------------------------------------------

  predicate IsNumberChar(c: char) { IsDigit(c) || c in "+-.eE" }

  /** Digits without a needless leading zero. */
  predicate IsNatural(s: string) { s != "" && AllDigits(s) && (|s| == 1 || s[0] != '0') }

  predicate IsIntegerText(s: string) { IsNatural(s) || (s != "" && s[0] == '-' && IsNatural(s[1..])) }

  function DigitRun(s: string): (n: nat)
    ensures n <= |s|
  {
    if s != "" && IsDigit(s[0]) then 1 + DigitRun(s[1..]) else 0
  }

  predicate IsExponent(s: string) {
    s == "" ||
    (s[0] in "eE" && var t := if |s| > 1 && s[1] in "+-" then s[2..] else s[1..]; t != "" && AllDigits(t))
  }

  predicate IsFractionPart(s: string) {
    if s == "" || s[0] != '.' then IsExponent(s)
    else var n := DigitRun(s[1..]); n > 0 && IsExponent(s[1..][n..])
  }

  /** The grammar of section 6 of RFC 8259. */
  predicate IsNumberText(s: string) {
    var t := if s != "" && s[0] == '-' then s[1..] else s;
    IsNatural(t[..DigitRun(t)]) && IsFractionPart(t[DigitRun(t)..])
  }

  lemma {:induction false} DigitRunMeans(s: string)
    ensures AllDigits(s[..DigitRun(s)]) && (DigitRun(s) < |s| ==> !IsDigit(s[DigitRun(s)]))
  {
    if s != "" && IsDigit(s[0]) {
      DigitRunMeans(s[1..]);
      assert s[..DigitRun(s)] == [s[0]] + s[1..][..DigitRun(s) - 1];
    }
  }

  lemma {:induction false} DigitRunOf(digits: string, rest: string)
    requires AllDigits(digits) && (rest != "" ==> !IsDigit(rest[0]))
    ensures DigitRun(digits + rest) == |digits|
  {
    if digits == "" {
      assert digits + rest == rest;
    } else {
      assert (digits + rest)[1..] == digits[1..] + rest && digits[0] in digits;
      DigitRunOf(digits[1..], rest);
    }
  }

  /** An exponent: a mark, perhaps a sign, and digits. */
  predicate ExponentOf(s: string, sign: string, digits: string) {
    sign in {"", "+", "-"} && digits != "" && AllDigits(digits) && (s == "e" + sign + digits || s == "E" + sign + digits)
  }

  ghost predicate IsPower(s: string) { s == "" || exists sign, digits :: ExponentOf(s, sign, digits) }

  predicate IsFraction(s: string) { s == "" || (|s| > 1 && s[0] == '.' && AllDigits(s[1..])) }

  /** A number: perhaps a minus, digits without a needless zero, perhaps a fraction, perhaps an exponent. */
  ghost predicate NumberOf(s: string, sign: string, whole: string, fraction: string, power: string) {
    sign in {"", "-"} && IsNatural(whole) && IsFraction(fraction) && IsPower(power) && s == sign + whole + fraction + power
  }

  lemma PowerIsExponent(s: string)
    ensures IsExponent(s) <==> IsPower(s)
    ensures IsPower(s) && s != "" ==> s[0] in "eE"
  {
    if IsExponent(s) && s != "" {
      var signed := |s| > 1 && s[1] in "+-";
      var sign, digits := if signed then [s[1]] else "", if signed then s[2..] else s[1..];
      assert s == [s[0]] + sign + digits;
      assert ExponentOf(s, sign, digits);
    }
    if s != "" && IsPower(s) {
      var sign, digits :| ExponentOf(s, sign, digits);
      assert s[1..] == sign + digits && digits[0] in digits;
      if sign == "" { assert s[1..] == digits; } else { assert s[2..] == digits; }
    }
  }

  lemma FractionThenPower(s: string, fraction: string, power: string)
    requires IsFraction(fraction) && IsPower(power) && s == fraction + power
    ensures IsFractionPart(s)
  {
    PowerIsExponent(power);
    if fraction == "" {
      assert s == power;
    } else {
      assert s[1..] == fraction[1..] + power;
      DigitRunOf(fraction[1..], power);
      assert s[1..][|fraction| - 1..] == power;
    }
  }

  lemma FractionParts(s: string) returns (fraction: string, power: string)
    requires IsFractionPart(s)
    ensures IsFraction(fraction) && IsPower(power) && s == fraction + power
  {
    if s == "" || s[0] != '.' {
      PowerIsExponent(s);
      fraction, power := "", s;
    } else {
      var n := DigitRun(s[1..]);
      DigitRunMeans(s[1..]);
      PowerIsExponent(s[1..][n..]);
      fraction, power := s[..n + 1], s[1..][n..];
      assert fraction[1..] == s[1..][..n];
    }
  }

  /** The grammar is that of section 6 of RFC 8259, read from the left. */
  lemma NumberGrammar(s: string)
    ensures IsNumberText(s) <==> exists sign, whole, fraction, power :: NumberOf(s, sign, whole, fraction, power)
  {
    hide IsFractionPart, IsFraction, IsPower;
    if IsNumberText(s) {
      var sign := if s != "" && s[0] == '-' then "-" else "";
      var t := if s != "" && s[0] == '-' then s[1..] else s;
      var whole := t[..DigitRun(t)];
      var fraction, power := FractionParts(t[DigitRun(t)..]);
      assert s == sign + whole + fraction + power;
      assert NumberOf(s, sign, whole, fraction, power);
    }
    if exists sign, whole, fraction, power :: NumberOf(s, sign, whole, fraction, power) {
      var sign, whole, fraction, power :| NumberOf(s, sign, whole, fraction, power);
      ComposedIsNumber(s, sign, whole, fraction, power);
    }
  }

  lemma Unsigned(s: string, sign: string, t: string)
    requires sign in {"", "-"} && s == sign + t && t != "" && t[0] != '-'
    ensures (if s != "" && s[0] == '-' then s[1..] else s) == t
  {
  }

  lemma NotDigit(fraction: string, power: string)
    requires IsFraction(fraction) && IsPower(power)
    ensures fraction + power != "" ==> !IsDigit((fraction + power)[0])
  {
    PowerIsExponent(power);
    if fraction == "" { assert fraction + power == power; }
  }

  lemma WholeFirst(whole: string, rest: string)
    requires IsNatural(whole) && (rest != "" ==> !IsDigit(rest[0]))
    ensures var t := whole + rest;
            t[0] != '-' && DigitRun(t) == |whole| && t[..|whole|] == whole && t[|whole|..] == rest
  {
    assert whole[0] in whole;
    DigitRunOf(whole, rest);
  }

  lemma ComposedIsNumber(s: string, sign: string, whole: string, fraction: string, power: string)
    requires NumberOf(s, sign, whole, fraction, power)
    ensures IsNumberText(s)
  {
    hide IsNatural, IsFraction, IsPower, IsFractionPart, DigitRun;
    var rest := fraction + power;
    FractionThenPower(rest, fraction, power);
    NotDigit(fraction, power);
    WholeFirst(whole, rest);
    assert s == sign + (whole + rest);
    assert whole != "" by { NaturalSome(whole); }
    Unsigned(s, sign, whole + rest);
  }

  lemma NaturalSome(s: string)
    ensures IsNatural(s) ==> s != ""
  {
  }

  predicate ValidNumber(n: Number) {
    n.Integer? ||
    (IsNumberText(n.text) && !IsIntegerText(n.text) && forall c | c in n.text :: IsNumberChar(c))
  }

  /** A value JSON text can stand for: no undefined anywhere. */
  predicate Clean(v: Value) {
    match v
    case Undefined => false
    case Num(n) => ValidNumber(n)
    case Arr(items) => forall x | x in items :: Clean(x)
    case Obj(fields) => forall f | f in fields :: Clean(f.value)
    case _ => true
  }

  // ---- Printing ----------------------------------------------------------

  function IntegerText(i: int): string {
    if i < 0 then "-" + Digits(-i) else Digits(i)
  }

  function NumberText(n: Number): string {
    match n
    case Integer(i) => IntegerText(i)
    case Fraction(text) => text
  }

  function HexDigit(d: nat): char
    requires d < 16
  {
    "0123456789abcdef"[d]
  }

  const BACKSPACE: char := 8 as char
  const FORM_FEED: char := 12 as char

  function Escape(c: char): string {
    if c == '"' then "\\\""
    else if c == '\\' then "\\\\"
    else if c == BACKSPACE then "\\b"
    else if c == FORM_FEED then "\\f"
    else if c == '\n' then "\\n"
    else if c == '\r' then "\\r"
    else if c == '\t' then "\\t"
    else if c < ' ' then "\\u00" + [HexDigit(c as int / 16), HexDigit(c as int % 16)]
    else [c]
  }

  function EscapeAll(s: string): string {
    if s == "" then "" else Escape(s[0]) + EscapeAll(s[1..])
  }

  function Quote(s: string): string { "\"" + EscapeAll(s) + "\"" }

  function Print(v: Value): string
    requires Clean(v)
    decreases v
  {
    match v
    case Null => "null"
    case Bool(b) => if b then "true" else "false"
    case Num(n) => NumberText(n)
    case Str(s) => Quote(s)
    case Arr(items) => "[" + PrintItems(items) + "]"
    case Obj(fields) => "{" + PrintFields(fields) + "}"
  }

  function PrintItems(items: seq<Value>): string
    requires forall x | x in items :: Clean(x)
    decreases items
  {
    if items == [] then ""
    else Print(items[0]) + (if |items| == 1 then "" else "," + PrintItems(items[1..]))
  }

  function PrintFields(fields: seq<Field>): string
    requires forall f | f in fields :: Clean(f.value)
    decreases fields
  {
    if fields == [] then ""
    else
      Quote(fields[0].key) + ":" + Print(fields[0].value) +
      (if |fields| == 1 then "" else "," + PrintFields(fields[1..]))
  }

  // ---- Reading -----------------------------------------------------------

  /** A value (or a part of one) read from the front of a text, and what is left. */
  type Read<T> = Option<(T, string)>

  function NumberRun(s: string): (n: nat)
    ensures n <= |s|
  {
    if s != "" && IsNumberChar(s[0]) then 1 + NumberRun(s[1..]) else 0
  }

  function IntegerOf(s: string): int
    requires IsIntegerText(s)
  {
    if IsNatural(s) then NatOf(s) as int else 0 - NatOf(s[1..])
  }

  function ReadNumber(s: string): (r: Read<Value>)
    ensures r.Some? ==> |r.value.1| < |s|
  {
    var run := s[..NumberRun(s)];
    if IsIntegerText(run) then Some((Num(Integer(IntegerOf(run))), s[|run|..]))
    else if ValidNumber(Fraction(run)) then Some((Num(Fraction(run)), s[|run|..]))
    else None
  }

  function HexValue(c: char): Option<nat> {
    if IsDigit(c) then Some(c as int - '0' as int)
    else if 'a' <= c <= 'f' then Some(c as int - 'a' as int + 10)
    else None
  }

  /** One character or escape sequence of a string body, and how long its text is. */
  function ReadChar(s: string): (r: Option<(char, nat)>)
    ensures r.Some? ==> 0 < r.value.1 <= |s|
  {
    if s == "" || s[0] == '"' || s[0] < ' ' then None
    else if s[0] != '\\' then Some((s[0], 1))
    else if |s| < 2 then None
    else if s[1] == '"' || s[1] == '\\' then Some((s[1], 2))
    else if s[1] == 'b' then Some((BACKSPACE, 2))
    else if s[1] == 'f' then Some((FORM_FEED, 2))
    else if s[1] == 'n' then Some(('\n', 2))
    else if s[1] == 'r' then Some(('\r', 2))
    else if s[1] == 't' then Some(('\t', 2))
    else if |s| >= 6 && s[1..4] == "u00" && HexValue(s[4]).Some? && HexValue(s[5]).Some?
    then Some(((16 * HexValue(s[4]).value + HexValue(s[5]).value) as char, 6))
    else None
  }

  /** The rest of a string whose opening quote is already consumed. */
  function ReadString(s: string): (r: Read<string>)
    ensures r.Some? ==> |r.value.1| < |s|
    decreases |s|
  {
    if s == "" then None
    else if s[0] == '"' then Some(("", s[1..]))
    else
      match ReadChar(s)
      case None => None
      case Some((c, n)) =>
        match ReadString(s[n..])
        case None => None
        case Some((tail, rest)) => Some(([c] + tail, rest))
  }

  function ReadValue(s: string): (r: Read<Value>)
    ensures r.Some? ==> |r.value.1| < |s|
    decreases |s|, 1
  {
    if s == "" then None
    else if |s| >= 4 && s[..4] == "null" then Some((Null, s[4..]))
    else if |s| >= 4 && s[..4] == "true" then Some((Bool(true), s[4..]))
    else if |s| >= 5 && s[..5] == "false" then Some((Bool(false), s[5..]))
    else if s[0] == '"' then
      match ReadString(s[1..])
      case None => None
      case Some((text, rest)) => Some((Str(text), rest))
    else if s[0] == '[' then
      if |s| >= 2 && s[1] == ']' then Some((Arr([]), s[2..]))
      else
        match ReadItems(s[1..])
        case None => None
        case Some((items, rest)) => Some((Arr(items), rest))
    else if s[0] == '{' then
      if |s| >= 2 && s[1] == '}' then Some((Obj([]), s[2..]))
      else
        match ReadFields(s[1..])
        case None => None
        case Some((fields, rest)) => Some((Obj(fields), rest))
    else ReadNumber(s)
  }

  /** One or more values separated by commas, up to the closing bracket. */
  function ReadItems(s: string): (r: Read<seq<Value>>)
    ensures r.Some? ==> |r.value.1| < |s|
    decreases |s|, 2
  {
    match ReadValue(s)
    case None => None
    case Some((v, rest)) =>
      if rest == "" then None
      else if rest[0] == ']' then Some(([v], rest[1..]))
      else if rest[0] == ',' then
        match ReadItems(rest[1..])
        case None => None
        case Some((items, last)) => Some(([v] + items, last))
      else None
  }

  /** One or more fields separated by commas, up to the closing brace. */
  function ReadFields(s: string): (r: Read<seq<Field>>)
    ensures r.Some? ==> |r.value.1| < |s|
    decreases |s|, 2
  {
    if s == "" || s[0] != '"' then None
    else
      match ReadString(s[1..])
      case None => None
      case Some((key, colon)) =>
        if colon == "" || colon[0] != ':' then None
        else
          match ReadValue(colon[1..])
          case None => None
          case Some((v, rest)) =>
            if rest == "" then None
            else if rest[0] == '}' then Some(([Field(key, v)], rest[1..]))
            else if rest[0] == ',' then
              match ReadFields(rest[1..])
              case None => None
              case Some((fields, last)) => Some(([Field(key, v)] + fields, last))
            else None
  }

  /** JSON.parse on a text without white space and with the escapes JSON.stringify writes; None elsewhere. */
  function Parse(s: string): Option<Value> {
    match ReadValue(s)
    case Some((v, "")) => Some(v)
    case _ => None
  }

  // ---- Reading undoes printing -------------------------------------------

  /** What may follow a printed value without running into it. */
  predicate Delimited(rest: string) { rest == "" || !IsNumberChar(rest[0]) }

  lemma {:induction false} NumberRunOf(text: string, rest: string)
    requires forall c | c in text :: IsNumberChar(c)
    requires Delimited(rest)
    ensures NumberRun(text + rest) == |text|
  {
    if text == "" {
      assert text + rest == rest;
    } else {
      assert (text + rest)[1..] == text[1..] + rest;
      NumberRunOf(text[1..], rest);
    }
  }

  lemma IntegerRoundTrip(i: int)
    ensures IsIntegerText(IntegerText(i)) && IntegerOf(IntegerText(i)) == i
    ensures forall c | c in IntegerText(i) :: IsNumberChar(c)
  {
    DigitsLead(if i < 0 then -i else i);
    if i < 0 {
      NatOfDigits(-i);
      assert IntegerText(i)[1..] == Digits(-i);
      assert !IsDigit(IntegerText(i)[0]);
      assert IntegerText(i)[0] in IntegerText(i);
    } else {
      NatOfDigits(i);
    }
  }

  lemma NumberRoundTrip(n: Number, rest: string)
    requires ValidNumber(n) && Delimited(rest)
    ensures ReadNumber(NumberText(n) + rest) == Some((Num(n), rest))
  {
    if n.Integer? {
      IntegerRoundTrip(n.i);
    }
    NumberRunOf(NumberText(n), rest);
    assert (NumberText(n) + rest)[..|NumberText(n)|] == NumberText(n);
    assert (NumberText(n) + rest)[|NumberText(n)|..] == rest;
  }

  lemma CharRoundTrip(c: char, rest: string)
    ensures ReadChar(Escape(c) + rest) == Some((c, |Escape(c)|))
    ensures Escape(c) != "" && Escape(c)[0] != '"'
  {
    var s := Escape(c) + rest;
    if c < ' ' && |Escape(c)| == 6 {
      assert s[1..4] == "u00";
      var h, l := c as int / 16, c as int % 16;
      assert h < 2 && s[4] == HexDigit(h) && s[5] == HexDigit(l);
      assert HexValue(HexDigit(h)) == Some(h);
      assert HexValue(HexDigit(l)) == Some(l);
    }
  }

  lemma {:induction false} StringRoundTrip(text: string, rest: string)
    ensures ReadString(EscapeAll(text) + "\"" + rest) == Some((text, rest))
  {
    var s := EscapeAll(text) + "\"" + rest;
    if text == "" {
      assert s[1..] == rest;
    } else {
      var e := Escape(text[0]);
      var tail := EscapeAll(text[1..]) + "\"" + rest;
      assert s == e + tail;
      CharRoundTrip(text[0], tail);
      assert s[|e|..] == tail;
      StringRoundTrip(text[1..], rest);
      assert s[0] == e[0];
      assert [text[0]] + text[1..] == text;
    }
  }

  /** The first character of a printed value tells its kind. */
  lemma PrintHead(v: Value)
    requires Clean(v)
    ensures Print(v) != ""
    ensures v.Arr? <==> Print(v)[0] == '['
    ensures v.Obj? <==> Print(v)[0] == '{'
    ensures Print(v)[0] != ']'
  {
    if v.Num? && v.num.Integer? {
      IntegerRoundTrip(v.num.i);
      assert Print(v)[0] in Print(v);
    }
  }

  lemma FractionHead(text: string)
    requires IsNumberText(text)
    ensures text != "" && (IsDigit(text[0]) || text[0] == '-')
  {
    var t := if text != "" && text[0] == '-' then text[1..] else text;
    assert t[..DigitRun(t)] != "" && t[..DigitRun(t)][0] in t[..DigitRun(t)];
  }

  /** The numbers' first character keeps them apart from everything else. */
  lemma NumberHead(n: Number, rest: string)
    requires ValidNumber(n)
    ensures NumberText(n) != "" && (IsDigit(NumberText(n)[0]) || NumberText(n)[0] == '-')
    ensures ReadValue(NumberText(n) + rest) == ReadNumber(NumberText(n) + rest)
  {
    var text := NumberText(n);
    hide ReadNumber, IsNumberText, IsIntegerText;
    assert text != "" && (IsDigit(text[0]) || text[0] == '-') by {
      if n.Integer? {
        assert text[0] == '-' || text[0] in Digits(n.i);
      } else {
        FractionHead(n.text);
      }
    }
    var s := text + rest;
    assert s[0] == text[0];
    if |s| >= 4 { assert s[..4][0] == s[0]; }
    if |s| >= 5 { assert s[..5][0] == s[0]; }
  }

  lemma {:induction false} ValueRoundTrip(v: Value, rest: string)
    requires Clean(v) && Delimited(rest)
    ensures ReadValue(Print(v) + rest) == Some((v, rest))
    decreases v, 1
  {
    hide ReadValue, ReadNumber, NumberText, Quote;
    match v
    case Null => WordRoundTrip(v, rest);
    case Bool(b) => WordRoundTrip(v, rest);
    case Num(n) =>
      NumberHead(n, rest);
      NumberRoundTrip(n, rest);
    case Str(text) => TextRoundTrip(text, rest);
    case Arr(items) => ArrayRoundTrip(items, rest);
    case Obj(fields) => ObjectRoundTrip(fields, rest);
  }

  lemma TextRoundTrip(text: string, rest: string)
    ensures ReadValue(Quote(text) + rest) == Some((Str(text), rest))
  {
    hide ReadValue, ReadString, EscapeAll;
    StringRoundTrip(text, rest);
    ReadQuoted(EscapeAll(text) + "\"" + rest, text, rest);
    assert Quote(text) + rest == "\"" + (EscapeAll(text) + "\"" + rest);
  }

  lemma {:induction false} ArrayRoundTrip(items: seq<Value>, rest: string)
    requires forall x | x in items :: Clean(x)
    ensures ReadValue(("[" + PrintItems(items) + "]") + rest) == Some((Arr(items), rest))
    decreases items, 1
  {
    if items == [] {
      ReadEmpty(rest);
      assert "[" + "" + "]" + rest == "[]" + rest;
    } else {
      ItemsRoundTrip(items, rest);
      PrintHead(items[0]);
      var body := PrintItems(items) + "]" + rest;
      assert body[0] == Print(items[0])[0];
      ReadBracketed(body, items, rest);
      Enclose("[", PrintItems(items), "]", rest);
    }
  }

  lemma {:induction false} ObjectRoundTrip(fields: seq<Field>, rest: string)
    requires forall f | f in fields :: Clean(f.value)
    ensures ReadValue(("{" + PrintFields(fields) + "}") + rest) == Some((Obj(fields), rest))
    decreases fields, 1
  {
    if fields == [] {
      ReadEmpty(rest);
      assert "{" + "" + "}" + rest == "{}" + rest;
    } else {
      FieldsRoundTrip(fields, rest);
      var body := PrintFields(fields) + "}" + rest;
      ReadBraced(body, fields, rest);
      Enclose("{", PrintFields(fields), "}", rest);
    }
  }

  lemma Enclose(open: string, body: string, close: string, rest: string)
    ensures (open + body + close) + rest == open + (body + close + rest)
  {
  }

  lemma WordRoundTrip(v: Value, rest: string)
    requires v.Null? || v.Bool?
    ensures ReadValue(Print(v) + rest) == Some((v, rest))
  {
    var s := Print(v) + rest;
    if v == Bool(false) {
      assert s[..5] == "false" && s[5..] == rest && s[..4][0] == 'f';
    } else if v == Null {
      assert s[..4] == "null" && s[4..] == rest;
    } else {
      assert s[..4] == "true" && s[4..] == rest;
    }
  }

  /** How ReadValue goes on after each opening character. */
  lemma ReadQuoted(body: string, text: string, rest: string)
    requires ReadString(body) == Some((text, rest))
    ensures ReadValue("\"" + body) == Some((Str(text), rest))
  {
    HeadRules("\"" + body, '"');
    assert ("\"" + body)[1..] == body;
  }

  lemma ReadEmpty(rest: string)
    ensures ReadValue("[]" + rest) == Some((Arr([]), rest))
    ensures ReadValue("{}" + rest) == Some((Obj([]), rest))
  {
    HeadRules("[]" + rest, '[');
    HeadRules("{}" + rest, '{');
    assert ("[]" + rest)[2..] == rest && ("{}" + rest)[2..] == rest;
  }

  lemma ReadBracketed(body: string, items: seq<Value>, rest: string)
    requires body != "" && body[0] != ']' && ReadItems(body) == Some((items, rest))
    ensures ReadValue("[" + body) == Some((Arr(items), rest))
  {
    HeadRules("[" + body, '[');
    assert ("[" + body)[1..] == body;
  }

  lemma ReadBraced(body: string, fields: seq<Field>, rest: string)
    requires ReadFields(body) == Some((fields, rest))
    ensures ReadValue("{" + body) == Some((Obj(fields), rest))
  {
    HeadRules("{" + body, '{');
    assert ("{" + body)[1..] == body;
    assert body[0] == '"';
  }

  lemma HeadRules(s: string, c: char)
    requires s != "" && s[0] == c && c in "\"[{"
    ensures !(|s| >= 4 && s[..4] == "null") && !(|s| >= 4 && s[..4] == "true")
    ensures !(|s| >= 5 && s[..5] == "false")
  {
    if |s| >= 4 { assert s[..4][0] == c; }
    if |s| >= 5 { assert s[..5][0] == c; }
  }

  lemma {:induction false} ItemsRoundTrip(items: seq<Value>, rest: string)
    requires items != [] && forall x | x in items :: Clean(x)
    ensures ReadItems(PrintItems(items) + "]" + rest) == Some((items, rest))
    decreases items, 0
  {
    var v := items[0];
    if |items| == 1 {
      ValueRoundTrip(v, "]" + rest);
      ReadLastItem(Print(v), v, rest);
      assert items == [v];
    } else {
      var more := PrintItems(items[1..]);
      ValueRoundTrip(v, "," + (more + "]" + rest));
      ItemsRoundTrip(items[1..], rest);
      ReadNextItem(Print(v), v, more, items[1..], rest);
      assert items == [v] + items[1..];
    }
  }

  lemma ReadLastItem(text: string, v: Value, rest: string)
    requires ReadValue(text + ("]" + rest)) == Some((v, "]" + rest))
    ensures ReadItems((text + "") + "]" + rest) == Some(([v], rest))
  {
    assert (text + "") + "]" + rest == text + ("]" + rest);
    ItemLast(text + ("]" + rest), v, rest);
  }

  lemma ItemLast(s: string, v: Value, rest: string)
    requires ReadValue(s) == Some((v, "]" + rest))
    ensures ReadItems(s) == Some(([v], rest))
  {
    hide ReadValue;
    assert ("]" + rest)[1..] == rest;
  }

  lemma ReadNextItem(text: string, v: Value, more: string, items: seq<Value>, rest: string)
    requires ReadValue(text + ("," + (more + "]" + rest))) == Some((v, "," + (more + "]" + rest)))
    requires ReadItems(more + "]" + rest) == Some((items, rest))
    ensures ReadItems((text + ("," + more)) + "]" + rest) == Some(([v] + items, rest))
  {
    hide ReadValue, ReadItems;
    RegroupItem(text, more, rest);
    ItemThen(text + ("," + (more + "]" + rest)), v, more + "]" + rest, items, rest);
  }

  lemma RegroupItem(text: string, more: string, rest: string)
    ensures (text + ("," + more)) + "]" + rest == text + ("," + (more + "]" + rest))
  {
  }

  lemma ItemThen(s: string, v: Value, tail: string, items: seq<Value>, rest: string)
    requires ReadValue(s) == Some((v, "," + tail)) && ReadItems(tail) == Some((items, rest))
    ensures ReadItems(s) == Some(([v] + items, rest))
  {
    hide ReadValue;
    assert ("," + tail)[1..] == tail;
  }

  lemma {:induction false} FieldsRoundTrip(fields: seq<Field>, rest: string)
    requires fields != [] && forall f | f in fields :: Clean(f.value)
    ensures ReadFields(PrintFields(fields) + "}" + rest) == Some((fields, rest))
    decreases fields, 0
  {
    hide ReadFields, ReadValue, Print, Quote;
    var f := fields[0];
    if |fields| == 1 {
      ValueRoundTrip(f.value, "}" + rest);
      assert PrintFields(fields) == Quote(f.key) + ":" + Print(f.value) + "";
      ReadLastField(f, Print(f.value), rest);
      assert fields == [f];
    } else {
      var more := PrintFields(fields[1..]);
      var next := more + "}" + rest;
      assert PrintFields(fields) == Quote(f.key) + ":" + Print(f.value) + ("," + more);
      ValueRoundTrip(f.value, "," + next);
      FieldsRoundTrip(fields[1..], rest);
      ReadNextField(f, Print(f.value), more, next, fields[1..], rest);
      assert fields == [f] + fields[1..];
    }
  }

  lemma ReadKey(key: string, body: string)
    ensures var s := Quote(key) + ":" + body;
            s[0] == '"' && ReadString(s[1..]) == Some((key, ":" + body)) && (":" + body)[1..] == body
  {
    StringRoundTrip(key, ":" + body);
    assert (Quote(key) + ":" + body)[1..] == EscapeAll(key) + "\"" + (":" + body);
  }

  lemma Regroup(key: string, text: string, tail: string, rest: string, after: string)
    requires after == tail + "}" + rest
    ensures (key + ":" + text + tail) + "}" + rest == key + ":" + (text + after)
  {
  }

  lemma RegroupNext(more: string, rest: string, next: string)
    requires next == more + "}" + rest
    ensures "," + next == ("," + more) + "}" + rest
    ensures ("," + next)[1..] == next
  {
  }

  /** ReadFields gets past a key, its colon and its value. */
  lemma ReadOneField(f: Field, body: string, after: string)
    requires ReadValue(body) == Some((f.value, after)) && after != ""
    ensures var s := Quote(f.key) + ":" + body;
            ReadFields(s) ==
            if after[0] == '}' then Some(([f], after[1..]))
            else if after[0] == ',' then
              (match ReadFields(after[1..])
               case None => None
               case Some((fields, last)) => Some(([f] + fields, last)))
            else None
  {
    ReadKey(f.key, body);
  }

  lemma ReadLastField(f: Field, text: string, rest: string)
    requires ReadValue(text + ("}" + rest)) == Some((f.value, "}" + rest))
    ensures ReadFields((Quote(f.key) + ":" + text + "") + "}" + rest) == Some(([f], rest))
  {
    var after := "}" + rest;
    assert after == "" + "}" + rest && after[1..] == rest;
    Regroup(Quote(f.key), text, "", rest, after);
    ReadOneField(f, text + after, after);
  }

  lemma ReadNextField(f: Field, text: string, more: string, next: string, fields: seq<Field>, rest: string)
    requires next == more + "}" + rest
    requires ReadValue(text + ("," + next)) == Some((f.value, "," + next))
    requires ReadFields(next) == Some((fields, rest))
    ensures ReadFields((Quote(f.key) + ":" + text + ("," + more)) + "}" + rest) == Some(([f] + fields, rest))
  {
    RegroupNext(more, rest, next);
    Regroup(Quote(f.key), text, "," + more, rest, "," + next);
    ReadOneField(f, text + ("," + next), "," + next);
  }

  /** JSON.parse undoes JSON.stringify on every value that has a JSON text. */
  lemma ParsePrint(v: Value)
    requires Clean(v)
    ensures Parse(Print(v)) == Some(v)
  {
    ValueRoundTrip(v, "");
    assert Print(v) + "" == Print(v);
  }

  /** Text after a list or an object is refused. */
  lemma TrailingRefused(v: Value, more: string)
    requires Clean(v) && (v.Arr? || v.Obj?) && more != "" && Delimited(more)
    ensures Parse(Print(v) + more) == None
  {
    ValueRoundTrip(v, more);
  }

  /** Only quotes, backslashes and control characters are escaped, the latter by a letter where there is one. */
  lemma EscapesAreMinimal(c: char)
    ensures Escape(c) == [c] <==> c >= ' ' && c != '"' && c != '\\'
    ensures |Escape(c)| == if Escape(c) == [c] then 1 else if c in "\"\\\n\r\t" || c as int == 8 || c as int == 12 then 2 else 6
  {
  }

  /** Two values with one text are the same value. */
  lemma PrintInjective(v: Value, w: Value)
    requires Clean(v) && Clean(w)
    ensures Print(v) == Print(w) ==> v == w
  {
    ParsePrint(v);
    ParsePrint(w);
  }
}
