/**
 * Server-sent events: the frames the API writes (apps/api/src/transport/sse.ts) and the
 * incremental reader of the web client (apps/web/lib/api/sse.ts).  The wire format is
 * section 9.2 of the HTML Living Standard.
 */
module Sse {
  import opened Basics
  import opened Json

  // ---- What is written ---------------------------------------------------

  /** What JSON.stringify accepts: finite numbers, undefined allowed anywhere inside. */
  predicate Printable(v: Value) {
    match v
    case Num(n) => ValidNumber(n)
    case Arr(items) => forall x | x in items :: Printable(x)
    case Obj(fields) => forall f | f in fields :: Printable(f.value)
    case _ => true
  }

  /** What JSON.stringify keeps: no undefined fields, null for undefined in a list. */
  function Strip(v: Value): (r: Value)
    requires Printable(v) && v != Undefined
    ensures Clean(r) && (r.Arr? <==> v.Arr?) && (r.Obj? <==> v.Obj?)
    decreases v
  {
    match v
    case Arr(items) => Arr(StripItems(items))
    case Obj(fields) => Obj(StripFields(fields))
    case _ => v
  }

  function StripItems(items: seq<Value>): (r: seq<Value>)
    requires forall x | x in items :: Printable(x)
    ensures forall x | x in r :: Clean(x)
    decreases items
  {
    if items == [] then []
    else [if items[0] == Undefined then Null else Strip(items[0])] + StripItems(items[1..])
  }

  function StripFields(fields: seq<Field>): (r: seq<Field>)
    requires forall f | f in fields :: Printable(f.value)
    ensures forall f | f in r :: Clean(f.value)
    decreases fields
  {
    if fields == [] then []
    else
      (if fields[0].value == Undefined then [] else [Field(fields[0].key, Strip(fields[0].value))]) +
      StripFields(fields[1..])
  }

  function Stringify(v: Value): string
    requires Printable(v) && v != Undefined
  {
    Print(Strip(v))
  }

  predicate IsAlphaNumeric(c: char) { 'A' <= c <= 'Z' || 'a' <= c <= 'z' || IsDigit(c) }

  predicate SafeId(id: string) {
    1 <= |id| <= 256 && forall c | c in id :: IsAlphaNumeric(c) || c in "._:-"
  }

  predicate SafeType(t: string) {
    1 <= |t| <= 64 && forall c | c in t :: IsAlphaNumeric(c) || c in "._-"
  }

  function SanitizeType(t: string): (r: string)
    ensures SafeType(r)
  {
    if SafeType(t) then t else "message"
  }

  /** The one character a pattern allows beyond letters, digits, dot, underscore and hyphen. */
  method TestPattern(s: string, most: nat, colon: bool) returns (ok: bool)
    ensures ok <==> 1 <= |s| <= most && forall c | c in s :: IsAlphaNumeric(c) || c in "._-" || (colon && c == ':')
  {
    if s == "" || |s| > most { return false; }
    for i := 0 to |s|
      invariant forall j | 0 <= j < i :: IsAlphaNumeric(s[j]) || s[j] in "._-" || (colon && s[j] == ':')
    {
      var c := s[i];
      var word := ('a' <= c && c <= 'z') || ('A' <= c && c <= 'Z') || ('0' <= c && c <= '9');
      if !word && c != '.' && c != '_' && c != '-' && !(colon && c == ':') {
        assert s[i] in s;
        return false;
      }
    }
    return true;
  }

  /** Event types that are sent as they are: 1 to 64 letters, digits, dots, underscores and hyphens. */
  predicate PlainKind(kind: string) {
    0 < |kind| < 65 && forall i | 0 <= i < |kind| ::
      || ('a' <= kind[i] <= 'z') || ('A' <= kind[i] <= 'Z') || ('0' <= kind[i] <= '9')
      || kind[i] == '.' || kind[i] == '_' || kind[i] == '-'
  }

  /** Ids that are accepted: 1 to 256 of these characters and colons. */
  predicate PlainId(id: string) {
    0 < |id| < 257 && forall i | 0 <= i < |id| ::
      || ('a' <= id[i] <= 'z') || ('A' <= id[i] <= 'Z') || ('0' <= id[i] <= '9')
      || id[i] == '.' || id[i] == '_' || id[i] == '-' || id[i] == ':'
  }

  lemma PlainIsSafe(s: string)
    ensures SafeType(s) <==> PlainKind(s)
    ensures SafeId(s) <==> PlainId(s)
    ensures SanitizeType(s) == if PlainKind(s) then s else "message"
  {
    assert forall i | 0 <= i < |s| :: s[i] in s;
  }

  /** One call on a connection. */
  datatype Call = Send(id: string, kind: string, data: Value) | Heartbeat(at: string)

  predicate OneLine(s: string) { forall c | c in s :: c != '\n' && c != '\r' }

  predicate ValidCall(call: Call) {
    match call
    case Send(_, _, data) => Printable(data)
    case Heartbeat(at) => OneLine(at)
  }

  type Item = c: Call | ValidCall(c) witness Heartbeat("")

  predicate Accepted(item: Item) { item.Send? && item.data != Undefined && SafeId(item.id) }

  function Block(item: Item): string
    requires item.Send? ==> item.data != Undefined
  {
    match item
    case Send(id, kind, data) =>
      ("id: " + id) + "\n" + ("event: " + SanitizeType(kind)) + "\n" + ("data: " + Stringify(data))
    case Heartbeat(at) => ": heartbeat " + at
  }

  function WireText(item: Item): string
  {
    if item.Heartbeat? || Accepted(item) then Block(item) + "\n\n" else ""
  }

  function Wire(items: seq<Item>): string
  {
    if items == [] then "" else WireText(items[0]) + Wire(items[1..])
  }

  /**
   * A connection: `wire` is what the response stream has taken, `broken` whether it takes
   * no more, `closeCalls` how often the onClose hook has run.
   */
  class SseConnection {
    var closed: bool
    var closeNotified: bool
    var broken: bool
    var wire: string
    ghost var closeCalls: nat

    ghost predicate Valid()
      reads this
    {
      closeCalls == if closeNotified then 1 else 0
    }

    constructor ()
      ensures Valid() && !closed && !broken && wire == "" && closeCalls == 0
    {
      closed, closeNotified, broken, wire, closeCalls := false, false, false, "", 0;
    }

    method Write(chunk: string) returns (ok: bool)
      modifies this`closed, this`wire
      ensures ok <==> !old(closed) && !broken
      ensures wire == old(wire) + if ok then chunk else ""
      ensures closed == (old(closed) || broken)
    {
      if closed { return false; }
      if broken { closed := true; return false; }
      wire := wire + chunk;
      return true;
    }

    method Send(id: string, kind: string, data: Value) returns (ok: bool)
      requires ValidCall(Call.Send(id, kind, data))
      modifies this`closed, this`wire
      ensures ok <==> data != Undefined && PlainId(id) && !old(closed) && !broken
      ensures closed ==> old(closed) || broken
      ensures wire == old(wire) + if !old(closed) && !broken then WireText(Call.Send(id, kind, data)) else ""
    {
      PlainIsSafe(id);
      var safe := TestPattern(id, 256, true);
      if data == Undefined || !safe {
        return false;
      }
      var plain := TestPattern(kind, 64, false);
      var event := if plain then kind else "message";
      ok := Write(("id: " + id) + "\n" + ("event: " + event) + "\n" + ("data: " + Stringify(data)) + "\n\n");
    }

    method WriteHeartbeat(at: string)
      requires OneLine(at)
      modifies this`closed, this`wire
      ensures wire == old(wire) + if !old(closed) && !broken then WireText(Heartbeat(at)) else ""
    {
      var _ := Write(": heartbeat " + at + "\n\n");
    }

    /** The onClose hook runs once however the connection ends. */
    method NotifyClose()
      requires Valid()
      modifies this`closeNotified, this`closeCalls
      ensures Valid() && closeCalls == 1
    {
      if closeNotified { return; }
      closeNotified := true;
      closeCalls := closeCalls + 1;
    }

    method Close()
      requires Valid()
      modifies this
      ensures Valid() && closed && wire == old(wire) && broken == old(broken)
      ensures closeCalls == if old(closed) then old(closeCalls) else 1
    {
      if !closed {
        closed := true;
        NotifyClose();
      }
    }

    method Cancel()
      requires Valid()
      modifies this
      ensures Valid() && closed && wire == old(wire) && broken == old(broken) && closeCalls == 1
    {
      closed := true;
      NotifyClose();
    }
  }

  // ---- What is read ------------------------------------------------------

  datatype Frame = Frame(id: Option<string>, event: string, data: Value)

  /** Where the first empty line starts. */
  function FindBreak(s: string): (r: Option<nat>)
    ensures r.Some? ==> r.value + 2 <= |s|
  {
    if |s| < 2 then None
    else if s[0] == '\n' && s[1] == '\n' then Some(0)
    else
      match FindBreak(s[1..])
      case None => None
      case Some(i) => Some(i + 1)
  }

  datatype Split = Split(blocks: seq<string>, rest: string)

  /** buffer.split('\n\n') with the last part taken off as the rest. */
  function Blocks(s: string): Split
    decreases |s|
  {
    match FindBreak(s)
    case None => Split([], s)
    case Some(i) =>
      var tail := Blocks(s[i + 2..]);
      Split([s[..i]] + tail.blocks, tail.rest)
  }

  function SplitLines(s: string): (r: seq<string>)
    ensures r != []
  {
    if s == "" then [""]
    else if s[0] == '\n' then [""] + SplitLines(s[1..])
    else
      var r := SplitLines(s[1..]);
      [[s[0]] + r[0]] + r[1..]
  }

  function IndexOfColon(s: string): (r: Option<nat>)
    ensures r.Some? ==> r.value < |s|
  {
    if s == "" then None
    else if s[0] == ':' then Some(0)
    else
      match IndexOfColon(s[1..])
      case None => None
      case Some(i) => Some(i + 1)
  }

  /** The fields of a block read so far. */
  datatype Partial = Partial(id: Option<string>, event: string, dataLines: seq<string>)

  const EMPTY_BLOCK := Partial(None, "message", [])

  function DropReturn(raw: string): string {
    if raw != "" && raw[|raw| - 1] == '\r' then raw[..|raw| - 1] else raw
  }

  function DropSpace(s: string): string {
    if s != "" && s[0] == ' ' then s[1..] else s
  }

  /** The field and the value of a line, unless it is empty or a comment. */
  function FieldOf(raw: string): Option<(string, string)> {
    var line := DropReturn(raw);
    if line == "" || line[0] == ':' then None
    else
      match IndexOfColon(line)
      case None => Some((line, ""))
      case Some(colon) => Some((line[..colon], DropSpace(line[colon + 1..])))
  }

  function ReadLine(p: Partial, raw: string): Partial {
    match FieldOf(raw)
    case None => p
    case Some((field, value)) =>
      if field == "id" then p.(id := Some(value))
      else if field == "event" then p.(event := value)
      else if field == "data" then p.(dataLines := p.dataLines + [value])
      else p
  }

  function ReadLines(p: Partial, lines: seq<string>): Partial
    decreases lines
  {
    if lines == [] then p else ReadLines(ReadLine(p, lines[0]), lines[1..])
  }

  function JoinLines(lines: seq<string>): string {
    if lines == [] then ""
    else if |lines| == 1 then lines[0]
    else lines[0] + "\n" + JoinLines(lines[1..])
  }

  function DataOf(joined: string): Value {
    if joined != "" && (joined[0] == '{' || joined[0] == '[') && Parse(joined).Some?
    then Parse(joined).value
    else Str(joined)
  }

  function Finish(p: Partial): Option<Frame> {
    if p.dataLines == [] && p.id.None? then None
    else Some(Frame(p.id, p.event, DataOf(JoinLines(p.dataLines))))
  }

  function FrameOf(block: string): Option<Frame> {
    Finish(ReadLines(EMPTY_BLOCK, SplitLines(block)))
  }

  function FramesOf(blocks: seq<string>): seq<Frame> {
    if blocks == [] then []
    else
      (match FrameOf(blocks[0]) case None => [] case Some(f) => [f]) + FramesOf(blocks[1..])
  }

  datatype Decoded = Decoded(frames: seq<Frame>, rest: string)

  /** What the reader makes of a text that arrives as a whole. */
  function Decode(s: string): Decoded {
    Decoded(FramesOf(Blocks(s).blocks), Blocks(s).rest)
  }

  lemma {:induction false} ReadLinesSnoc(p: Partial, lines: seq<string>, line: string)
    ensures ReadLines(p, lines + [line]) == ReadLine(ReadLines(p, lines), line)
    decreases lines
  {
    if lines == [] {
      assert lines + [line] == [line];
      assert ReadLines(ReadLine(p, line), [line][1..]) == ReadLine(p, line);
    } else {
      assert (lines + [line])[1..] == lines[1..] + [line];
      ReadLinesSnoc(ReadLine(p, lines[0]), lines[1..], line);
    }
  }

  lemma {:induction false} FramesOfAppend(a: seq<string>, b: seq<string>)
    ensures FramesOf(a + b) == FramesOf(a) + FramesOf(b)
  {
    if a == [] {
      assert a + b == b;
    } else {
      assert (a + b)[1..] == a[1..] + b;
      FramesOfAppend(a[1..], b);
    }
  }

  method FindColon(s: string) returns (r: Option<nat>)
    ensures r == IndexOfColon(s)
  {
    var i := 0;
    while i < |s|
      invariant i <= |s|
      invariant IndexOfColon(s) == match IndexOfColon(s[i..]) case None => None case Some(k) => Some(i + k)
    {
      assert s[i..][1..] == s[i + 1..];
      if s[i] == ':' { return Some(i); }
      i := i + 1;
    }
    return None;
  }

  lemma JoinFirst(first: string, rest: seq<string>)
    requires rest != []
    ensures JoinLines([first] + rest) == first + "\n" + JoinLines(rest)
  {
    assert ([first] + rest)[1..] == rest;
  }

  lemma JoinOne(line: string)
    ensures JoinLines([line]) == line
  {
  }

  lemma Prepended(c: char, a: string, b: string, d: string)
    ensures ([c] + a) + b + d == [c] + (a + b + d)
  {
  }

  lemma JoinPrepended(c: char, first: string, rest: seq<string>)
    ensures JoinLines([[c] + first] + rest) == [c] + JoinLines([first] + rest)
  {
    hide JoinLines;
    if rest != [] {
      JoinFirst([c] + first, rest);
      JoinFirst(first, rest);
      Prepended(c, first, "\n", JoinLines(rest));
    } else {
      assert [[c] + first] + [] == [[c] + first] && [first] + [] == [first];
      JoinOne([c] + first);
      JoinOne(first);
    }
  }

  lemma SplitFirst(s: string)
    requires s != ""
    ensures var r := SplitLines(s[1..]);
            SplitLines(s) == if s[0] == '\n' then [""] + r else [[s[0]] + r[0]] + r[1..]
  {
  }

  /** The lines of a text are what its newlines separate. */
  lemma {:induction false} LinesJoin(s: string)
    ensures JoinLines(SplitLines(s)) == s
    ensures forall line | line in SplitLines(s) :: '\n' !in line
  {
    hide JoinLines, SplitLines;
    if s == "" {
      OneLineJoined();
    } else {
      var r := SplitLines(s[1..]);
      LinesJoin(s[1..]);
      SplitFirst(s);
      assert s == [s[0]] + s[1..];
      if s[0] == '\n' {
        JoinFirst("", r);
        assert "" + "\n" + s[1..] == s;
      } else {
        assert [r[0]] + r[1..] == r;
        JoinPrepended(s[0], r[0], r[1..]);
        assert forall line | line in r[1..] :: line in r;
        assert r[0] in r;
      }
    }
  }

  lemma OneLineJoined()
    ensures SplitLines("") == [""] && JoinLines([""]) == ""
  {
  }

  /** An empty line ends there. */
  predicate BreakAt(s: string, i: nat) { i + 1 < |s| && s[i] == '\n' && s[i + 1] == '\n' }

  /** The break found is an empty line, and the first. */
  lemma {:induction false} BreakIsFirst(s: string)
    ensures FindBreak(s).Some? ==> BreakAt(s, FindBreak(s).value)
    ensures forall i: nat | BreakAt(s, i) :: FindBreak(s).Some? && FindBreak(s).value <= i
  {
    if |s| >= 2 && !BreakAt(s, 0) {
      BreakIsFirst(s[1..]);
      forall i: nat | BreakAt(s, i) ensures FindBreak(s).Some? && FindBreak(s).value <= i { assert BreakAt(s[1..], i - 1); }
    }
  }

  function Terminated(blocks: seq<string>): string {
    if blocks == [] then "" else blocks[0] + "\n\n" + Terminated(blocks[1..])
  }

  lemma CutAtBreak(s: string, i: nat)
    requires BreakAt(s, i)
    ensures s == s[..i] + "\n\n" + s[i + 2..]
  {
    assert s[i..i + 2] == "\n\n";
  }

  lemma TerminatedFirst(first: string, blocks: seq<string>, rest: string)
    ensures Terminated([first] + blocks) + rest == first + "\n\n" + (Terminated(blocks) + rest)
  {
    assert ([first] + blocks)[1..] == blocks;
  }

  /** The blocks of a text, each with the empty line after it, and the rest make up the text; the rest has none. */
  lemma {:induction false} BlocksJoin(s: string)
    ensures Terminated(Blocks(s).blocks) + Blocks(s).rest == s && FindBreak(Blocks(s).rest).None?
    decreases |s|
  {
    hide FindBreak, Terminated, BreakAt;
    if FindBreak(s).Some? {
      var i := FindBreak(s).value;
      BreakIsFirst(s);
      BlocksJoin(s[i + 2..]);
      TerminatedFirst(s[..i], Blocks(s[i + 2..]).blocks, Blocks(s[i + 2..]).rest);
      CutAtBreak(s, i);
    } else {
      NoneTerminated(s);
    }
  }

  lemma NoneTerminated(s: string)
    ensures Terminated([]) + s == s
  {
  }

  /** One line; nothing for an empty one or a comment. */
  method ParseLine(raw: string) returns (r: Option<(string, string)>)
    ensures r == FieldOf(raw)
  {
    hide IndexOfColon;
    var line := raw;
    if |line| > 0 && line[|line| - 1] == '\r' { line := line[..|line| - 1]; }
    if line == "" || line[0] == ':' { return None; }
    var colon := FindColon(line);
    if colon.None? { return Some((line, "")); }
    var value := line[colon.value + 1..];
    if |value| > 0 && value[0] == ' ' { value := value[1..]; }
    return Some((line[..colon.value], value));
  }

  /** dataLines.join of newlines. */
  method Join(lines: seq<string>) returns (joined: string)
    ensures joined == JoinLines(lines)
  {
    joined := "";
    var i := |lines|;
    while i > 0
      invariant 0 <= i <= |lines| && joined == JoinLines(lines[i..])
    {
      i := i - 1;
      assert lines[i..][1..] == lines[i + 1..];
      joined := if i + 1 == |lines| then lines[i] else lines[i] + "\n" + joined;
    }
    assert lines[0..] == lines;
  }

  method ParseSseBlock(block: string) returns (frame: Option<Frame>)
    ensures frame == FrameOf(block)
  {
    hide FieldOf, SplitLines;
    var id: Option<string> := None;
    var event := "message";
    var dataLines: seq<string> := [];
    var lines := SplitLines(block);
    for i := 0 to |lines|
      invariant Partial(id, event, dataLines) == ReadLines(EMPTY_BLOCK, lines[..i])
    {
      ReadLinesSnoc(EMPTY_BLOCK, lines[..i], lines[i]);
      assert lines[..i + 1] == lines[..i] + [lines[i]];
      var entry := ParseLine(lines[i]);
      if entry.None? { continue; }
      var (field, value) := entry.value;
      if field == "id" { id := Some(value); }
      else if field == "event" { event := value; }
      else if field == "data" { dataLines := dataLines + [value]; }
    }
    assert lines[..|lines|] == lines;
    if dataLines == [] && id.None? { return None; }
    var joined := Join(dataLines);
    var data := Str(joined);
    if joined != "" && (joined[0] == '{' || joined[0] == '[') {
      var parsed := Parse(joined);
      if parsed.Some? { data := parsed.value; }
    }
    return Some(Frame(id, event, data));
  }

  lemma FramesStart(blocks: seq<string>)
    ensures FramesOf(blocks[..0]) == []
  {
  }

  lemma FramesNext(blocks: seq<string>, i: nat)
    requires i < |blocks|
    ensures FramesOf(blocks[..i + 1]) ==
            FramesOf(blocks[..i]) + match FrameOf(blocks[i]) case None => [] case Some(f) => [f]
  {
    hide FrameOf;
    assert blocks[..i + 1] == blocks[..i] + [blocks[i]];
    FramesOfAppend(blocks[..i], [blocks[i]]);
    assert [blocks[i]][1..] == [];
  }

  method ConsumeSseBuffer(buffer: string) returns (frames: seq<Frame>, rest: string)
    ensures Decode(buffer) == Decoded(frames, rest)
  {
    hide Blocks, FrameOf, FramesOf;
    var parts := Blocks(buffer);
    rest := parts.rest;
    frames := [];
    FramesStart(parts.blocks);
    for i := 0 to |parts.blocks|
      invariant frames == FramesOf(parts.blocks[..i])
    {
      FramesNext(parts.blocks, i);
      var frame := ParseSseBlock(parts.blocks[i]);
      if frame.Some? { frames := frames + [frame.value]; }
    }
    assert parts.blocks[..|parts.blocks|] == parts.blocks;
  }

  // ---- Chunk invariance --------------------------------------------------

  lemma {:induction false} FindBreakAppend(s: string, t: string)
    requires FindBreak(s).Some?
    ensures FindBreak(s + t) == FindBreak(s)
  {
    if !(s[0] == '\n' && s[1] == '\n') {
      assert (s + t)[1..] == s[1..] + t;
      FindBreakAppend(s[1..], t);
    }
  }

  lemma BlocksFirst(s: string, first: string, tail: string)
    requires FindBreak(s) == Some(|first|) && s[..|first|] == first && s[|first| + 2..] == tail
    ensures Blocks(s) == Split([first] + Blocks(tail).blocks, Blocks(tail).rest)
  {
  }

  /** What reading s and then t gives, one buffer after the other. */
  function Resumed(s: string, t: string): Split {
    var a := Blocks(s);
    var b := Blocks(a.rest + t);
    Split(a.blocks + b.blocks, b.rest)
  }

  lemma ResumedFirst(s: string, first: string, tail: string, t: string)
    requires Blocks(s) == Split([first] + Blocks(tail).blocks, Blocks(tail).rest)
    ensures Resumed(s, t) == Split([first] + Resumed(tail, t).blocks, Resumed(tail, t).rest)
  {
    var b := Blocks(Blocks(tail).rest + t);
    assert [first] + Blocks(tail).blocks + b.blocks == [first] + (Blocks(tail).blocks + b.blocks);
  }

  lemma {:induction false} BlocksAppend(s: string, t: string)
    ensures Blocks(s + t) == Resumed(s, t)
    decreases |s|
  {
    if FindBreak(s).None? {
      var b := Blocks(s + t);
      assert [] + b.blocks == b.blocks;
    } else {
      var i := FindBreak(s).value;
      var first, tail := s[..i], s[i + 2..];
      FindBreakAppend(s, t);
      BlocksFirst(s, first, tail);
      assert (s + t)[..i] == first && (s + t)[i + 2..] == tail + t;
      BlocksFirst(s + t, first, tail + t);
      BlocksAppend(tail, t);
      ResumedFirst(s, first, tail, t);
    }
  }

  /** Reading a text in two pieces, the rest of the first put before the second. */
  lemma DecodeAppend(s: string, t: string)
    ensures var a := Decode(s); var b := Decode(a.rest + t);
            Decode(s + t) == Decoded(a.frames + b.frames, b.rest)
  {
    BlocksAppend(s, t);
    FramesOfAppend(Blocks(s).blocks, Blocks(Blocks(s).rest + t).blocks);
  }

  function Concat(chunks: seq<string>): string {
    if chunks == [] then "" else Concat(chunks[..|chunks| - 1]) + chunks[|chunks| - 1]
  }

  lemma ConcatNext(chunks: seq<string>, i: nat)
    requires i < |chunks|
    ensures Concat(chunks[..i + 1]) == Concat(chunks[..i]) + chunks[i]
  {
    assert chunks[..i + 1][..i] == chunks[..i];
  }

  /**
   * The read loop: whatever way the body is cut into chunks, the frames are those of the
   * whole text read before the caller aborts.
   */
  method DecodeSseStream(chunks: seq<string>, aborted: nat) returns (frames: seq<Frame>, buffer: string)
    ensures Decode(Concat(chunks[..Min(aborted, |chunks|)])) == Decoded(frames, buffer)
  {
    frames, buffer := [], "";
    var i := 0;
    assert Blocks("") == Split([], "");
    while i < aborted && i < |chunks|
      invariant 0 <= i <= Min(aborted, |chunks|)
      invariant Decode(Concat(chunks[..i])) == Decoded(frames, buffer)
    {
      ConcatNext(chunks, i);
      DecodeAppend(Concat(chunks[..i]), chunks[i]);
      var more;
      more, buffer := ConsumeSseBuffer(buffer + chunks[i]);
      frames := frames + more;
      i := i + 1;
    }
  }

  // ---- Reading undoes writing --------------------------------------------

  /** Every control character of a string is escaped, so JSON text is one line. */
  lemma {:induction false} EscapeAllVisible(s: string)
    ensures forall c | c in EscapeAll(s) :: c >= ' '
  {
    if s != "" {
      EscapeAllVisible(s[1..]);
      assert forall c | c in Escape(s[0]) :: c >= ' ';
    }
  }

  predicate NoControls(s: string) { forall c | c in s :: c >= ' ' }

  lemma Joined(a: string, b: string)
    requires NoControls(a) && NoControls(b)
    ensures NoControls(a + b)
  {
  }

  lemma {:induction false} PrintVisible(v: Value)
    requires Clean(v)
    ensures NoControls(Print(v))
    decreases v
  {
    match v
    case Num(n) => if n.Integer? { IntegerRoundTrip(n.i); }
    case Str(s) => QuoteVisible(s);
    case Arr(items) => PrintItemsVisible(items); Enclosed("[", PrintItems(items), "]");
    case Obj(fields) => PrintFieldsVisible(fields); Enclosed("{", PrintFields(fields), "}");
    case _ =>
  }

  lemma QuoteVisible(s: string)
    ensures NoControls(Quote(s))
  {
    EscapeAllVisible(s);
    Enclosed("\"", EscapeAll(s), "\"");
  }

  lemma Enclosed(open: string, body: string, close: string)
    requires NoControls(open) && NoControls(body) && NoControls(close)
    ensures NoControls(open + body + close)
  {
  }

  lemma {:induction false} PrintItemsVisible(items: seq<Value>)
    requires forall x | x in items :: Clean(x)
    ensures NoControls(PrintItems(items))
    decreases items
  {
    hide NoControls, Print;
    NoneInEmpty();
    if items != [] {
      PrintVisible(items[0]);
      PrintItemsVisible(items[1..]);
      Joined(",", PrintItems(items[1..]));
      Joined(Print(items[0]), if |items| == 1 then "" else "," + PrintItems(items[1..]));
    }
  }

  lemma NoneInEmpty()
    ensures NoControls("") && NoControls(",") && NoControls(":")
  {
  }

  lemma {:induction false} PrintFieldsVisible(fields: seq<Field>)
    requires forall f | f in fields :: Clean(f.value)
    ensures NoControls(PrintFields(fields))
    decreases fields
  {
    hide NoControls, Print, Quote;
    NoneInEmpty();
    if fields != [] {
      QuoteVisible(fields[0].key);
      PrintVisible(fields[0].value);
      PrintFieldsVisible(fields[1..]);
      Joined(Quote(fields[0].key), ":");
      Joined(Quote(fields[0].key) + ":", Print(fields[0].value));
      Joined(",", PrintFields(fields[1..]));
      Joined(Quote(fields[0].key) + ":" + Print(fields[0].value), if |fields| == 1 then "" else "," + PrintFields(fields[1..]));
    }
  }

  lemma {:induction false} FindBreakLine(line: string, rest: string)
    requires OneLine(line)
    ensures FindBreak(line + rest) ==
            match FindBreak(rest) case None => None case Some(i) => Some(|line| + i)
  {
    if line == "" {
      assert line + rest == rest;
    } else {
      var s := line + rest;
      assert s[0] == line[0] && line[0] in line;
      assert forall c | c in line[1..] :: c in line;
      assert s[1..] == line[1..] + rest;
      FindBreakLine(line[1..], rest);
      if |s| < 2 { assert rest == "" && line[1..] == ""; }
    }
  }

  lemma {:induction false} SplitLinesFirst(line: string, rest: string)
    requires OneLine(line)
    ensures SplitLines(line) == [line]
    ensures SplitLines(line + "\n" + rest) == [line] + SplitLines(rest)
  {
    var s := line + "\n" + rest;
    if line == "" {
      assert s[1..] == rest;
    } else {
      assert line[0] in line;
      assert forall c | c in line[1..] :: c in line;
      assert s[1..] == line[1..] + "\n" + rest;
      SplitLinesFirst(line[1..], rest);
      assert [line[0]] + line[1..] == line;
    }
  }

  lemma {:induction false} IndexOfColonAfter(name: string, rest: string)
    requires ':' !in name
    ensures IndexOfColon(name + ":" + rest) == Some(|name|)
  {
    if name != "" {
      assert (name + ":" + rest)[1..] == name[1..] + ":" + rest;
      IndexOfColonAfter(name[1..], rest);
    }
  }

  /** What a line "name: value" does. */
  lemma ReadFieldLine(p: Partial, name: string, value: string)
    requires name in ["id", "event", "data"]
    requires value != "" && OneLine(value)
    ensures ReadLine(p, name + ": " + value) ==
            if name == "id" then p.(id := Some(value))
            else if name == "event" then p.(event := value)
            else p.(dataLines := p.dataLines + [value])
  {
    var line := name + ": " + value;
    assert line == name + ":" + (" " + value);
    assert line[|line| - 1] == value[|value| - 1] && value[|value| - 1] in value;
    assert DropReturn(line) == line;
    IndexOfColonAfter(name, " " + value);
    assert line[..|name|] == name;
    assert line[|name| + 1..] == " " + value;
    assert DropSpace(" " + value) == value;
  }

  /** What becomes of the data of a send: an object or a list comes back as itself. */
  function Received(data: Value): Value
    requires Printable(data) && data != Undefined
  {
    if data.Obj? || data.Arr? then Strip(data) else Str(Stringify(data))
  }

  /** A value without undefined parts is sent as it is. */
  lemma {:induction false} CleanStays(v: Value)
    requires Printable(v) && Clean(v) && v != Undefined
    ensures Strip(v) == v
    decreases v
  {
    match v
    case Arr(items) => CleanItemsStay(items);
    case Obj(fields) => CleanFieldsStay(fields);
    case _ =>
  }

  lemma {:induction false} CleanItemsStay(items: seq<Value>)
    requires forall x | x in items :: Printable(x) && Clean(x) && x != Undefined
    ensures StripItems(items) == items
    decreases items
  {
    if items != [] {
      assert items == [items[0]] + items[1..];
      CleanStays(items[0]);
      CleanItemsStay(items[1..]);
    }
  }

  lemma {:induction false} CleanFieldsStay(fields: seq<Field>)
    requires forall f | f in fields :: Printable(f.value) && Clean(f.value) && f.value != Undefined
    ensures StripFields(fields) == fields
    decreases fields
  {
    if fields != [] {
      assert fields == [fields[0]] + fields[1..];
      CleanStays(fields[0].value);
      CleanFieldsStay(fields[1..]);
    }
  }

  /** Of an object exactly the defined fields are sent, and of a list every item, null where it is undefined. */
  lemma {:induction false} StripKeeps(fields: seq<Field>, items: seq<Value>)
    requires (forall f | f in fields :: Printable(f.value)) && forall x | x in items :: Printable(x)
    ensures forall f :: f in StripFields(fields) <==>
              exists g | g in fields && g.value != Undefined :: f == Field(g.key, Strip(g.value))
    ensures var r := StripItems(items);
            |r| == |items| && forall i | 0 <= i < |r| :: r[i] == if items[i] == Undefined then Null else Strip(items[i])
    decreases fields, items
  {
    if fields != [] {
      assert fields == [fields[0]] + fields[1..];
      StripKeeps(fields[1..], items);
    } else if items != [] {
      StripKeeps(fields, items[1..]);
    }
  }

  function FrameOfItem(item: Item): Option<Frame>
  {
    if item.Send? && item.data != Undefined && PlainId(item.id)
    then Some(Frame(Some(item.id), if PlainKind(item.kind) then item.kind else "message", Received(item.data)))
    else None
  }

  lemma HeartbeatRoundTrip(item: Item)
    requires item.Heartbeat?
    ensures FrameOf(Block(item)) == None
  {
    var block := Block(item);
    SplitLinesFirst(block, "");
    assert DropReturn(block)[0] == ':';
    ReadLinesSnoc(EMPTY_BLOCK, [], block);
    assert [] + [block] == [block];
  }

  /** What is read is what was sent: the id, the type where it is well formed, else "message", and the data. */
  lemma SendRoundTrip(item: Item)
    requires item.Send? && item.data != Undefined && PlainId(item.id)
    ensures FrameOf(Block(item)) ==
            Some(Frame(Some(item.id), if PlainKind(item.kind) then item.kind else "message", Received(item.data)))
  {
    PlainIsSafe(item.id);
    PlainIsSafe(item.kind);
    SendFields(item);
    FinishData(Some(item.id), SanitizeType(item.kind), item.data);
  }

  lemma SendFields(item: Item)
    requires Accepted(item)
    ensures ReadLines(EMPTY_BLOCK, SplitLines(Block(item))) ==
            Partial(Some(item.id), SanitizeType(item.kind), [Stringify(item.data)])
  {
    var t, json := SanitizeType(item.kind), Stringify(item.data);
    SendParts(item);
    SplitThreeLines("id: " + item.id, "event: " + t, "data: " + json);
    ReadThreeLines("id: " + item.id, "event: " + t, "data: " + json);
    ReadSendLines(item.id, t, json);
  }

  lemma ReadSendLines(id: string, t: string, json: string)
    requires id != "" && t != "" && json != "" && OneLine(id) && OneLine(t) && OneLine(json)
    ensures ReadLine(ReadLine(ReadLine(EMPTY_BLOCK, "id: " + id), "event: " + t), "data: " + json) ==
            Partial(Some(id), t, [json])
  {
    assert "id" + ": " == "id: " && "event" + ": " == "event: " && "data" + ": " == "data: ";
    ReadFieldLine(EMPTY_BLOCK, "id", id);
    ReadFieldLine(Partial(Some(id), "message", []), "event", t);
    ReadFieldLine(Partial(Some(id), t, []), "data", json);
  }

  lemma FinishData(id: Option<string>, event: string, data: Value)
    requires Printable(data) && data != Undefined
    ensures Finish(Partial(id, event, [Stringify(data)])) == Some(Frame(id, event, Received(data)))
  {
    PrintHead(Strip(data));
    ParsePrint(Strip(data));
  }

  lemma ReadThreeLines(l1: string, l2: string, l3: string)
    ensures ReadLines(EMPTY_BLOCK, [l1, l2, l3]) ==
            ReadLine(ReadLine(ReadLine(EMPTY_BLOCK, l1), l2), l3)
  {
    ReadLinesSnoc(EMPTY_BLOCK, [], l1);
    ReadLinesSnoc(EMPTY_BLOCK, [l1], l2);
    ReadLinesSnoc(EMPTY_BLOCK, [l1, l2], l3);
    assert [] + [l1] == [l1] && [l1] + [l2] == [l1, l2] && [l1, l2] + [l3] == [l1, l2, l3];
  }

  /** No part of a frame breaks its line. */
  lemma SendParts(item: Item)
    requires Accepted(item)
    ensures OneLine(item.id) && OneLine(SanitizeType(item.kind)) && OneLine(Stringify(item.data))
    ensures Stringify(item.data) != ""
  {
    PrintVisible(Strip(item.data));
    PrintHead(Strip(item.data));
  }

  lemma SplitThreeLines(l1: string, l2: string, l3: string)
    requires OneLine(l1) && OneLine(l2) && OneLine(l3)
    ensures SplitLines(l1 + "\n" + l2 + "\n" + l3) == [l1, l2, l3]
  {
    assert l1 + "\n" + l2 + "\n" + l3 == l1 + "\n" + (l2 + "\n" + l3);
    SplitLinesFirst(l1, l2 + "\n" + l3);
    SplitLinesFirst(l2, l3);
    SplitLinesFirst(l3, "");
  }

  lemma BreakThreeLines(l1: string, l2: string, l3: string, tail: string)
    requires OneLine(l1) && OneLine(l2) && OneLine(l3) && l2 != "" && l3 != ""
    ensures FindBreak(l1 + "\n" + l2 + "\n" + l3 + "\n\n" + tail) ==
            Some(|l1 + "\n" + l2 + "\n" + l3|)
  {
    assert l2[0] in l2 && l3[0] in l3;
    var s3 := l3 + ("\n\n" + tail);
    FindBreakLine(l3, "\n\n" + tail);
    var s2 := l2 + ("\n" + s3);
    NextLine(l2, s3);
    NextLine(l1, s2);
    assert l1 + "\n" + l2 + "\n" + l3 + "\n\n" + tail == l1 + ("\n" + s2);
  }

  lemma NextLine(line: string, rest: string)
    requires OneLine(line) && rest != "" && rest[0] != '\n' && FindBreak(rest).Some?
    ensures FindBreak(line + ("\n" + rest)) == Some(|line| + 1 + FindBreak(rest).value)
  {
    hide FindBreak, OneLine;
    BreakAfterNewline(rest);
    FindBreakLine(line, "\n" + rest);
  }

  lemma BreakAfterNewline(rest: string)
    requires rest != "" && rest[0] != '\n' && FindBreak(rest).Some?
    ensures FindBreak("\n" + rest) == Some(1 + FindBreak(rest).value)
  {
    assert ("\n" + rest)[1..] == rest;
  }

  lemma BlockBreak(item: Item, tail: string)
    requires (item.Heartbeat? || Accepted(item))
    ensures FindBreak(WireText(item) + tail) == Some(|Block(item)|)
  {
    if item.Heartbeat? {
      FindBreakLine(Block(item), "\n\n" + tail);
      assert WireText(item) + tail == Block(item) + ("\n\n" + tail);
    } else {
      SendParts(item);
      BreakThreeLines("id: " + item.id, "event: " + SanitizeType(item.kind), "data: " + Stringify(item.data), tail);
    }
  }

  lemma CutAt(block: string, tail: string)
    ensures (block + "\n\n" + tail)[..|block|] == block
    ensures (block + "\n\n" + tail)[|block| + 2..] == tail
  {
  }

  lemma WireTextDecodes(item: Item, tail: string)
    ensures Decode(WireText(item) + tail) ==
            Decoded((match FrameOfItem(item) case None => [] case Some(f) => [f]) + Decode(tail).frames,
                    Decode(tail).rest)
  {
    hide PlainId, PlainKind, SafeId, SafeType, Received, FrameOf, FindBreak, Block;
    if item.Send? { PlainIsSafe(item.id); }
    if item.Heartbeat? || Accepted(item) {
      var block, blocks := Block(item), Blocks(tail).blocks;
      BlockBreak(item, tail);
      CutAt(block, tail);
      BlocksFirst(WireText(item) + tail, block, tail);
      if item.Heartbeat? { HeartbeatRoundTrip(item); } else { SendRoundTrip(item); }
      assert ([block] + blocks)[1..] == blocks;
    } else {
      assert WireText(item) + tail == tail;
    }
  }

  /** The frames of the accepted sends, in order. */
  function Sent(items: seq<Item>): seq<Frame>
  {
    if items == [] then []
    else (match FrameOfItem(items[0]) case None => [] case Some(f) => [f]) + Sent(items[1..])
  }

  /** Whatever sends and heartbeats are mixed, the reader gets the accepted sends in order. */
  lemma {:induction false} WireRoundTrip(items: seq<Item>)
    ensures Decode(Wire(items)) == Decoded(Sent(items), "")
  {
    if items == [] {
      assert Blocks("") == Split([], "");
    } else {
      WireRoundTrip(items[1..]);
      WireTextDecodes(items[0], Wire(items[1..]));
    }
  }

  /** A connection cut at any character has delivered the frames of a prefix of the sends. */
  lemma CutWire(items: seq<Item>, received: string)
    requires received <= Wire(items)
    ensures Decode(received).frames <= Sent(items)
  {
    var lost := Wire(items)[|received|..];
    assert Wire(items) == received + lost;
    DecodeAppend(received, lost);
    WireRoundTrip(items);
  }
}
