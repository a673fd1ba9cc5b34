/**
 * The session timeline: replay after a cursor on the server
 * (apps/api/src/routes/session.routes.ts), and the client that keeps the events and the
 * cursor across reconnections (apps/web/lib/server-state/stream-manager.ts).
 */
module Timeline {
  import opened Basics
  import opened Json
  import opened Sse

  // ---- The server --------------------------------------------------------

  /** Number.MAX_SAFE_INTEGER. */
  const MAX_SAFE: nat := 9007199254740991

  /** Most events one connection replays. */
  const PAGE: nat := 200

  datatype LogEvent = LogEvent(seqNo: nat, kind: string, summary: string)

  /** A session's events: strictly increasing sequence numbers a client can represent. */
  predicate Ordered(log: seq<LogEvent>) {
    && (forall i, j | 0 <= i < j < |log| :: log[i].seqNo < log[j].seqNo)
    && (forall i | 0 <= i < |log| :: log[i].seqNo <= MAX_SAFE)
  }

  /** eventsAfter: the first `limit` events strictly after a sequence number. */
  function EventsAfter(log: seq<LogEvent>, after: nat, limit: nat): seq<LogEvent> {
    if log == [] || limit == 0 then []
    else if log[0].seqNo > after then [log[0]] + EventsAfter(log[1..], after, limit - 1)
    else EventsAfter(log[1..], after, limit)
  }

  function EventId(sessionId: string, n: nat): string { sessionId + ":" + Digits(n) }

  /** The sequence number a Last-Event-ID header names; 0 if it names none. */
  function Cursor(sessionId: string, header: Option<string>): nat {
    var prefix := sessionId + ":";
    if header.None? || !(prefix <= header.value) then 0
    else
      var suffix := header.value[|prefix|..];
      if suffix != "" && AllDigits(suffix) && NatOf(suffix) <= MAX_SAFE then NatOf(suffix) else 0
  }

  method ParseCursor(sessionId: string, lastEventId: Option<string>) returns (after: nat)
    ensures after == Cursor(sessionId, lastEventId)
  {
    after := 0;
    var cursorPrefix := sessionId + ":";
    if lastEventId.Some? && cursorPrefix <= lastEventId.value {
      var suffix := lastEventId.value[|cursorPrefix|..];
      if suffix != "" && AllDigits(suffix) {
        var tail := NatOf(suffix);
        if tail <= MAX_SAFE { after := tail; }
      }
    } else {
      after := 0;
    }
  }

  /**
   * The events a new connection replays. A client that names an event of the log gets the
   * page right after it; one that names none gets the first page of those numbered from 1.
   */
  method OpenReplay(log: seq<LogEvent>, sessionId: string, lastEventId: Option<string>) returns (replay: seq<LogEvent>)
    ensures replay == EventsAfter(log, Cursor(sessionId, lastEventId), PAGE)
    ensures Ordered(log) ==> IsPage(log, Cursor(sessionId, lastEventId), replay)
    ensures Ordered(log) ==>
              forall j | 0 <= j < |log| && lastEventId == Some(EventId(sessionId, log[j].seqNo)) ::
                replay == log[j + 1..Min(j + 201, |log|)]
    ensures Ordered(log) && lastEventId == None ==> replay == Visible(log)[..Min(200, |Visible(log)|)]
  {
    var after := ParseCursor(sessionId, lastEventId);
    replay := EventsAfter(log, after, PAGE);
    if Ordered(log) {
      AfterIsPage(log, after, PAGE);
      forall j | 0 <= j < |log| && lastEventId == Some(EventId(sessionId, log[j].seqNo))
        ensures replay == log[j + 1..Min(j + 1 + PAGE, |log|)]
      {
        CursorRoundTrip(sessionId, log[j].seqNo);
        EventsAfterSlice(log, j + 1, after, PAGE);
      }
      if lastEventId == None { FirstPage(log, PAGE); }
    }
  }

  /** All of the log after a sequence number, from the first such event on, up to a full page. */
  ghost predicate IsPage(log: seq<LogEvent>, after: nat, replay: seq<LogEvent>) {
    exists k: nat :: PageFrom(log, after, replay, k, PAGE)
  }

  predicate PageFrom(log: seq<LogEvent>, after: nat, replay: seq<LogEvent>, k: nat, limit: nat) {
    && k + |replay| <= |log| && replay == log[k..k + |replay|] && |replay| <= limit
    && (forall i | 0 <= i < k :: log[i].seqNo <= after) && (forall i | k <= i < |log| :: log[i].seqNo > after)
    && (|replay| < limit ==> k + |replay| == |log|)
  }

  /** How many events of an ordered log are numbered up to a cursor. */
  function UpToCursor(log: seq<LogEvent>, after: nat): (k: nat)
    ensures k <= |log|
  {
    if log == [] || log[|log| - 1].seqNo <= after then |log| else UpToCursor(log[..|log| - 1], after)
  }

  lemma {:induction false} UpToCursorSplits(log: seq<LogEvent>, after: nat)
    requires forall i, j | 0 <= i < j < |log| :: log[i].seqNo < log[j].seqNo
    ensures var k := UpToCursor(log, after);
            && (forall i | 0 <= i < k :: log[i].seqNo <= after) && (forall i | k <= i < |log| :: log[i].seqNo > after)
  {
    if log != [] && log[|log| - 1].seqNo > after {
      var front := log[..|log| - 1];
      assert forall i | 0 <= i < |front| :: front[i] == log[i];
      UpToCursorSplits(front, after);
    }
  }

  lemma AfterIsPage(log: seq<LogEvent>, after: nat, limit: nat)
    requires Ordered(log)
    ensures PageFrom(log, after, EventsAfter(log, after, limit), UpToCursor(log, after), limit)
  {
    var k := UpToCursor(log, after);
    UpToCursorSplits(log, after);
    EventsAfterSlice(log, k, after, limit);
  }

  lemma FirstPage(log: seq<LogEvent>, limit: nat)
    requires Ordered(log)
    ensures EventsAfter(log, 0, limit) == Visible(log)[..Min(limit, |Visible(log)|)]
  {
    if log != [] && log[0].seqNo == 0 {
      EventsAfterSlice(log, 1, 0, limit);
      SliceShift(log, 1, Min(1 + limit, |log|));
    } else {
      assert forall i | 0 <= i < |log| :: log[i].seqNo > 0;
      EventsAfterSlice(log, 0, 0, limit);
    }
  }

  function Payload(e: LogEvent): Value {
    Obj([Field("sequenceNumber", Num(Integer(e.seqNo))), Field("summary", Str(e.summary))])
  }

  function ReplayItem(sessionId: string, e: LogEvent): Item {
    assert forall f | f in Payload(e).fields :: Printable(f.value);
    Send(EventId(sessionId, e.seqNo), e.kind, Payload(e))
  }

  function Replay(sessionId: string, events: seq<LogEvent>): (r: seq<Item>)
    ensures |r| == |events| && forall i | 0 <= i < |r| :: r[i] == ReplayItem(sessionId, events[i])
  {
    if events == [] then [] else [ReplayItem(sessionId, events[0])] + Replay(sessionId, events[1..])
  }

  /** onOpen: every replayed event is sent, in order. */
  method SendReplay(connection: SseConnection, sessionId: string, replay: seq<LogEvent>)
    requires !connection.closed && !connection.broken
    modifies connection`closed, connection`wire
    ensures connection.wire == old(connection.wire) + Wire(Replay(sessionId, replay))
  {
    hide WireText, Accepted, SafeId, Payload, EventId;
    for i := 0 to |replay|
      invariant !connection.closed && !connection.broken
      invariant connection.wire == old(connection.wire) + Wire(Replay(sessionId, replay[..i]))
    {
      ReplayNext(sessionId, replay, i);
      var item := ReplayItem(sessionId, replay[i]);
      var _ := connection.Send(item.id, item.kind, item.data);
    }
    assert replay[..|replay|] == replay;
  }

  lemma ReplayNext(sessionId: string, replay: seq<LogEvent>, i: nat)
    requires i < |replay|
    ensures Wire(Replay(sessionId, replay[..i + 1])) ==
            Wire(Replay(sessionId, replay[..i])) + WireText(ReplayItem(sessionId, replay[i]))
  {
    hide Wire, WireText, ReplayItem, Replay;
    assert Replay(sessionId, replay[..i + 1]) == Replay(sessionId, replay[..i]) + [ReplayItem(sessionId, replay[i])];
    WireSnoc(Replay(sessionId, replay[..i]), ReplayItem(sessionId, replay[i]));
  }

  lemma {:induction false} WireSnoc(items: seq<Item>, item: Item)
    ensures Wire(items + [item]) == Wire(items) + WireText(item)
  {
    hide WireText;
    if items == [] {
      assert items + [item] == [item];
      assert Wire([item]) == WireText(item) + Wire([item][1..]);
    } else {
      assert (items + [item])[1..] == items[1..] + [item];
      WireSnoc(items[1..], item);
    }
  }

  // ---- The client --------------------------------------------------------

  datatype TimelineEvent =
    TimelineEvent(sequenceNumber: int, eventType: string, summary: string, eventId: Option<string>)

  datatype Client = Client(lastEventId: Option<string>, events: seq<TimelineEvent>, seen: set<string>)

  const NEW_CLIENT := Client(None, [], {})

  function Member(data: Value, key: string): Value {
    if data.Obj? then LastField(data.fields, key) else Undefined
  }

  function LastField(fields: seq<Field>, key: string): Value {
    if fields == [] then Undefined
    else if fields[|fields| - 1].key == key then fields[|fields| - 1].value
    else LastField(fields[..|fields| - 1], key)
  }

  /** Insert after every event that is not later: Array.prototype.sort is stable. */
  function InsertEvent(events: seq<TimelineEvent>, e: TimelineEvent): seq<TimelineEvent> {
    if events == [] || events[|events| - 1].sequenceNumber <= e.sequenceNumber then events + [e]
    else InsertEvent(events[..|events| - 1], e) + [events[|events| - 1]]
  }

  function SortEvents(events: seq<TimelineEvent>): seq<TimelineEvent> {
    if events == [] then []
    else InsertEvent(SortEvents(events[..|events| - 1]), events[|events| - 1])
  }

  function EventOf(frame: Frame): Option<TimelineEvent> {
    var sequenceNumber, summary := Member(frame.data, "sequenceNumber"), Member(frame.data, "summary");
    if !(sequenceNumber.Num? && sequenceNumber.num.Integer? && summary.Str?) then None
    else
      var kind := Member(frame.data, "eventType");
      Some(TimelineEvent(sequenceNumber.num.i, if kind.Str? then kind.s else frame.event, summary.s, frame.id))
  }

  function KeyOf(e: TimelineEvent): string {
    if e.eventId.Some? then e.eventId.value else e.eventType + ":" + IntegerText(e.sequenceNumber)
  }

  function Ingest(c: Client, frame: Frame): Client {
    var c1 := if frame.id.Some? then c.(lastEventId := frame.id) else c;
    var e := EventOf(frame);
    if e.None? || KeyOf(e.value) in c.seen then c1
    else c1.(seen := c.seen + {KeyOf(e.value)}, events := SortEvents(c.events + [e.value]))
  }

  function Deliver(c: Client, frames: seq<Frame>): Client
    decreases frames
  {
    if frames == [] then c else Deliver(Ingest(c, frames[0]), frames[1..])
  }

  lemma DeliverNext(c: Client, frames: seq<Frame>, i: nat)
    requires i < |frames|
    ensures Deliver(c, frames[i..]) == Deliver(Ingest(c, frames[i]), frames[i + 1..])
  {
    assert frames[i..][1..] == frames[i + 1..];
  }

  lemma DeliverDone(c: Client, frames: seq<Frame>)
    ensures Deliver(c, frames[|frames|..]) == c
  {
  }

  const BACKOFF_MS: seq<nat> := [1_000, 2_000, 4_000, 8_000, 15_000]

  class TimelineStream {
    var lastEventId: Option<string>
    var attempt: nat
    var events: seq<TimelineEvent>
    var seen: set<string>

    ghost function State(): Client
      reads this
    {
      Client(lastEventId, events, seen)
    }

    constructor ()
      ensures State() == NEW_CLIENT && attempt == 0
    {
      lastEventId, attempt, events, seen := None, 0, [], {};
    }

    method IngestFrame(frame: Frame)
      modifies this`lastEventId, this`events, this`seen
      ensures State() == Ingest(old(State()), frame)
    {
      if frame.id.Some? { lastEventId := frame.id; }
      if !frame.data.Obj? { return; }
      var sequenceNumber, summary := Member(frame.data, "sequenceNumber"), Member(frame.data, "summary");
      if !(sequenceNumber.Num? && sequenceNumber.num.Integer?) || !summary.Str? { return; }
      var kind := Member(frame.data, "eventType");
      var eventType := if kind.Str? then kind.s else frame.event;
      var key := if frame.id.Some? then frame.id.value else eventType + ":" + IntegerText(sequenceNumber.num.i);
      if key in seen { return; }
      seen := seen + {key};
      events := events + [TimelineEvent(sequenceNumber.num.i, eventType, summary.s, frame.id)];
      events := SortEvents(events);
    }

    /** One turn of the reconnect loop: what arrives is ingested; a failure makes it wait. */
    method Connect(chunks: seq<string>, aborted: nat, failed: bool) returns (waitMs: nat)
      modifies this
      ensures State() == Deliver(old(State()), Decode(Concat(chunks[..Min(aborted, |chunks|)])).frames)
      ensures attempt == if failed then old(attempt) + 1 else 0
      ensures failed ==> waitMs == (match old(attempt) case 0 => 1_000 case 1 => 2_000 case 2 => 4_000 case 3 => 8_000 case _ => 15_000)
      ensures !failed ==> waitMs == 0
    {
      hide Ingest, Decode, Deliver;
      var frames, rest := DecodeSseStream(chunks, aborted);
      assert frames[0..] == frames;
      for i := 0 to |frames|
        invariant attempt == old(attempt)
        invariant Deliver(State(), frames[i..]) == Deliver(old(State()), frames)
      {
        DeliverNext(State(), frames, i);
        IngestFrame(frames[i]);
      }
      DeliverDone(State(), frames);
      if failed {
        waitMs := BACKOFF_MS[Min(attempt, |BACKOFF_MS| - 1)];
        attempt := attempt + 1;
      } else {
        waitMs, attempt := 0, 0;
      }
    }
  }

  // ---- Client and log in step --------------------------------------------

  /** What the stream can ever deliver: the cursor starts at 0 and replay is strictly after. */
  function Visible(log: seq<LogEvent>): seq<LogEvent> {
    if log != [] && log[0].seqNo == 0 then log[1..] else log
  }

  function Shown(sessionId: string, e: LogEvent): TimelineEvent {
    TimelineEvent(e.seqNo, if PlainKind(e.kind) then e.kind else "message", e.summary, Some(EventId(sessionId, e.seqNo)))
  }

  function ShownAll(sessionId: string, events: seq<LogEvent>): (r: seq<TimelineEvent>)
    ensures |r| == |events| && forall i | 0 <= i < |r| :: r[i] == Shown(sessionId, events[i])
  {
    if events == [] then []
    else ShownAll(sessionId, events[..|events| - 1]) + [Shown(sessionId, events[|events| - 1])]
  }

  function Ids(sessionId: string, events: seq<LogEvent>): set<string> {
    if events == [] then {}
    else Ids(sessionId, events[..|events| - 1]) + {EventId(sessionId, events[|events| - 1].seqNo)}
  }

  /** The client that has received exactly these events; its cursor names the last one. */
  function Holding(sessionId: string, events: seq<LogEvent>): Client {
    Client(
      if events == [] then None else Some(EventId(sessionId, events[|events| - 1].seqNo)),
      ShownAll(sessionId, events),
      Ids(sessionId, events))
  }

  /** The client holds exactly the first k deliverable events. */
  ghost predicate InStep(sessionId: string, log: seq<LogEvent>, c: Client, k: nat) {
    k <= |Visible(log)| && c == Holding(sessionId, Visible(log)[..k])
  }

  // ---- The cursor --------------------------------------------------------

  lemma CursorRoundTrip(sessionId: string, n: nat)
    requires n <= 9007199254740991
    ensures Cursor(sessionId, Some(EventId(sessionId, n))) == n
  {
    var prefix, id := sessionId + ":", EventId(sessionId, n);
    assert id[|prefix|..] == Digits(n);
    assert prefix <= id;
    NatOfDigits(n);
  }

  lemma EventIdInjective(sessionId: string, m: nat, n: nat)
    ensures EventId(sessionId, m) == EventId(sessionId, n) ==> m == n
  {
    var prefix := sessionId + ":";
    assert EventId(sessionId, m)[|prefix|..] == Digits(m);
    assert EventId(sessionId, n)[|prefix|..] == Digits(n);
    NatOfDigits(m);
    NatOfDigits(n);
  }

  lemma SliceShift(log: seq<LogEvent>, from: nat, to: nat)
    requires 0 < from <= to <= |log|
    ensures log[1..][from - 1..to - 1] == log[from..to]
  {
  }

  /** On an ordered log, replay after the cursor is the page that follows the first k. */
  lemma {:induction false} EventsAfterSlice(log: seq<LogEvent>, k: nat, after: nat, limit: nat)
    requires k <= |log|
    requires forall i | 0 <= i < k :: log[i].seqNo <= after
    requires forall i | k <= i < |log| :: log[i].seqNo > after
    ensures EventsAfter(log, after, limit) == log[k..Min(k + limit, |log|)]
    decreases |log|
  {
    if log == [] || limit == 0 {
    } else if k == 0 {
      EventsAfterSlice(log[1..], 0, after, limit - 1);
      assert log[..Min(limit, |log|)] == [log[0]] + log[1..][..Min(limit - 1, |log| - 1)];
    } else {
      EventsAfterSlice(log[1..], k - 1, after, limit);
      SliceShift(log, k, Min(k + limit, |log|));
    }
  }

  lemma VisibleOrdered(log: seq<LogEvent>)
    requires Ordered(log)
    ensures Ordered(Visible(log)) && forall i | 0 <= i < |Visible(log)| :: Visible(log)[i].seqNo > 0
  {
  }

  lemma OrderedAt(v: seq<LogEvent>, k: nat)
    requires Ordered(v) && k <= |v| && forall i | 0 <= i < |v| :: v[i].seqNo > 0
    ensures var after := if k == 0 then 0 else v[k - 1].seqNo;
            && after <= MAX_SAFE
            && (forall i | 0 <= i < k :: v[i].seqNo <= after) && forall i | k <= i < |v| :: v[i].seqNo > after
  {
  }

  lemma VisibleAfter(log: seq<LogEvent>, after: nat, limit: nat)
    ensures EventsAfter(log, after, limit) == EventsAfter(Visible(log), after, limit)
  {
  }

  lemma HeldCursor(sessionId: string, events: seq<LogEvent>)
    ensures Holding(sessionId, events).lastEventId ==
            if events == [] then None else Some(EventId(sessionId, events[|events| - 1].seqNo))
  {
  }

  /** A client in step asks for exactly the events it does not have yet. */
  lemma ReplayContinues(sessionId: string, log: seq<LogEvent>, c: Client, k: nat, limit: nat)
    requires Ordered(log) && InStep(sessionId, log, c, k)
    ensures var v := Visible(log);
            EventsAfter(log, Cursor(sessionId, c.lastEventId), limit) == v[k..Min(k + limit, |v|)]
  {
    hide Ordered, Visible, EventsAfter, Holding, Cursor;
    var v := Visible(log);
    var after := if k == 0 then 0 else v[k - 1].seqNo;
    VisibleOrdered(log);
    OrderedAt(v, k);
    HeldCursor(sessionId, v[..k]);
    if k > 0 { CursorRoundTrip(sessionId, v[k - 1].seqNo); } else { NoCursor(sessionId); }
    EventsAfterSlice(v, k, after, limit);
    VisibleAfter(log, after, limit);
  }

  lemma NoCursor(sessionId: string)
    ensures Cursor(sessionId, None) == 0
  {
  }

  // ---- One connection ----------------------------------------------------

  /** The sends among what a connection carries; the rest are heartbeats. */
  function Sends(items: seq<Item>): seq<Item> {
    if items == [] then []
    else (if items[0].Send? then [items[0]] else []) + Sends(items[1..])
  }

  lemma {:induction false} SentOfSends(items: seq<Item>)
    ensures Sent(Sends(items)) == Sent(items)
  {
    hide FrameOfItem;
    if items != [] {
      SentOfSends(items[1..]);
      if items[0].Send? {
        SentCons(items[0], Sends(items[1..]));
      } else {
        NotSent(items[0]);
        assert [] + Sends(items[1..]) == Sends(items[1..]);
      }
    }
  }

  lemma NotSent(item: Item)
    requires item.Heartbeat?
    ensures FrameOfItem(item) == None
  {
  }

  lemma SentCons(item: Item, items: seq<Item>)
    ensures Sent([item] + items) == (match FrameOfItem(item) case None => [] case Some(f) => [f]) + Sent(items)
  {
    hide FrameOfItem;
    assert ([item] + items)[1..] == items;
  }

  function FrameFor(sessionId: string, e: LogEvent): Frame {
    Frame(Some(EventId(sessionId, e.seqNo)), if PlainKind(e.kind) then e.kind else "message", Payload(e))
  }

  function FramesFor(sessionId: string, events: seq<LogEvent>): (r: seq<Frame>)
    ensures |r| == |events| && forall i | 0 <= i < |r| :: r[i] == FrameFor(sessionId, events[i])
  {
    seq(|events|, i requires 0 <= i < |events| => FrameFor(sessionId, events[i]))
  }

  lemma PayloadReceived(e: LogEvent)
    ensures Received(Payload(e)) == Payload(e)
  {
    var fields := Payload(e).fields;
    assert fields[1..] == [fields[1]];
    assert StripFields([fields[1]]) == [fields[1]];
    assert StripFields(fields) == [fields[0]] + [fields[1]];
  }

  lemma ReplayFrame(sessionId: string, e: LogEvent)
    ensures FrameOfItem(ReplayItem(sessionId, e)) ==
            if SafeId(EventId(sessionId, e.seqNo)) then Some(FrameFor(sessionId, e)) else None
  {
    PlainIsSafe(EventId(sessionId, e.seqNo));
    PayloadReceived(e);
  }

  /** Once an id is refused, for its characters or its length, so is every later one. */
  lemma SafeIdShrinks(sessionId: string, m: nat, n: nat)
    requires m <= n && SafeId(EventId(sessionId, n))
    ensures SafeId(EventId(sessionId, m))
  {
    DigitsGrow(m, n);
    assert forall c | c in sessionId :: c in EventId(sessionId, n);
  }

  lemma SentReplayFirst(sessionId: string, events: seq<LogEvent>)
    requires events != []
    ensures Sent(Replay(sessionId, events)) ==
            (if SafeId(EventId(sessionId, events[0].seqNo)) then [FrameFor(sessionId, events[0])] else []) +
            Sent(Replay(sessionId, events[1..]))
  {
    ReplayFrame(sessionId, events[0]);
    assert Replay(sessionId, events)[1..] == Replay(sessionId, events[1..]);
  }

  /** How many of the events go out before the first whose id is refused. */
  function Sendable(sessionId: string, events: seq<LogEvent>): (n: nat)
    ensures n <= |events|
  {
    if events == [] || !SafeId(EventId(sessionId, events[0].seqNo)) then 0
    else 1 + Sendable(sessionId, events[1..])
  }

  lemma {:induction false} SentReplay(sessionId: string, events: seq<LogEvent>)
    requires Ordered(events)
    ensures Sent(Replay(sessionId, events)) == FramesFor(sessionId, events[..Sendable(sessionId, events)])
  {
    hide SafeId, EventId, Sent, Replay, FramesFor;
    if events == [] { NothingSent(sessionId); }
    if events != [] {
      SentReplayFirst(sessionId, events);
      if SafeId(EventId(sessionId, events[0].seqNo)) {
        SentReplay(sessionId, events[1..]);
        FramesForFirst(sessionId, events, Sendable(sessionId, events));
      } else {
        NoneSent(sessionId, events[1..], events[0].seqNo);
      }
    }
  }

  lemma NothingSent(sessionId: string)
    ensures Sent(Replay(sessionId, [])) == FramesFor(sessionId, [][..Sendable(sessionId, [])])
  {
  }

  lemma FramesForFirst(sessionId: string, events: seq<LogEvent>, n: nat)
    requires 0 < n <= |events|
    ensures FramesFor(sessionId, events[..n]) ==
            [FrameFor(sessionId, events[0])] + FramesFor(sessionId, events[1..][..n - 1])
  {
  }

  lemma {:induction false} NoneSent(sessionId: string, events: seq<LogEvent>, n: nat)
    requires !SafeId(EventId(sessionId, n))
    requires forall i | 0 <= i < |events| :: n <= events[i].seqNo
    ensures Sent(Replay(sessionId, events)) == []
  {
    if events != [] {
      SentReplayFirst(sessionId, events);
      NoneSent(sessionId, events[1..], n);
      if SafeId(EventId(sessionId, events[0].seqNo)) { SafeIdShrinks(sessionId, n, events[0].seqNo); }
    }
  }

  // ---- Ingesting in order ------------------------------------------------

  predicate SortedEvents(events: seq<TimelineEvent>) {
    forall i, j | 0 <= i < j < |events| :: events[i].sequenceNumber <= events[j].sequenceNumber
  }

  lemma {:induction false} SortSorted(events: seq<TimelineEvent>)
    requires SortedEvents(events)
    ensures SortEvents(events) == events
  {
    hide InsertEvent;
    if events != [] {
      var front, last := events[..|events| - 1], events[|events| - 1];
      SortSorted(front);
      InsertLast(front, last);
      assert front + [last] == events;
    }
  }

  /** The events of one number, in their order. */
  function Numbered(events: seq<TimelineEvent>, n: int): seq<TimelineEvent> {
    if events == [] then []
    else
      var k := |events| - 1;
      Numbered(events[..k], n) + if events[k].sequenceNumber == n then [events[k]] else []
  }

  lemma {:induction false} InsertSorted(events: seq<TimelineEvent>, e: TimelineEvent)
    requires SortedEvents(events)
    ensures var r := InsertEvent(events, e); SortedEvents(r) && (forall x | x in r :: x == e || x in events)
  {
    if events != [] && events[|events| - 1].sequenceNumber > e.sequenceNumber {
      var front, last := events[..|events| - 1], events[|events| - 1];
      InsertSorted(front, e);
      var r := InsertEvent(front, e);
      forall x | x in r ensures x.sequenceNumber <= last.sequenceNumber { }
    }
  }

  lemma {:induction false} InsertNumbered(events: seq<TimelineEvent>, e: TimelineEvent, n: int)
    ensures Numbered(InsertEvent(events, e), n) == Numbered(events, n) + if e.sequenceNumber == n then [e] else []
  {
    if events == [] || events[|events| - 1].sequenceNumber <= e.sequenceNumber {
      assert (events + [e])[..|events|] == events;
    } else {
      var front, last := events[..|events| - 1], events[|events| - 1];
      InsertNumbered(front, e, n);
      var r := InsertEvent(front, e);
      assert (r + [last])[..|r|] == r;
    }
  }

  /** Sorting orders by number and keeps the events of one number, all of them, in their order. */
  lemma {:induction false} SortIsStable(events: seq<TimelineEvent>, n: int)
    ensures SortedEvents(SortEvents(events)) && Numbered(SortEvents(events), n) == Numbered(events, n)
  {
    if events != [] {
      SortIsStable(events[..|events| - 1], n);
      InsertSorted(SortEvents(events[..|events| - 1]), events[|events| - 1]);
      InsertNumbered(SortEvents(events[..|events| - 1]), events[|events| - 1], n);
    }
  }

  /** Of a key written twice the last value counts. */
  lemma {:induction false} LastFieldCounts(fields: seq<Field>, i: nat)
    requires i < |fields| && forall j | i < j < |fields| :: fields[j].key != fields[i].key
    ensures Member(Obj(fields), fields[i].key) == fields[i].value
  {
    if i < |fields| - 1 { LastFieldCounts(fields[..|fields| - 1], i); }
  }

  lemma InsertLast(events: seq<TimelineEvent>, e: TimelineEvent)
    requires events == [] || events[|events| - 1].sequenceNumber <= e.sequenceNumber
    ensures InsertEvent(events, e) == events + [e]
  {
  }

  lemma EventOfFrame(sessionId: string, e: LogEvent)
    ensures EventOf(FrameFor(sessionId, e)) == Some(Shown(sessionId, e))
  {
    var fields := Payload(e).fields;
    assert |"summary"| == 7 && |"sequenceNumber"| == 14 && |"eventType"| == 9;
    assert fields[..1] == [Field("sequenceNumber", Num(Integer(e.seqNo)))];
    assert LastField(fields[..1], "sequenceNumber") == Num(Integer(e.seqNo));
    assert fields[..1][..0] == [];
    assert LastField(fields[..1], "eventType") == Undefined;
  }

  lemma IngestNew(c: Client, frame: Frame, e: TimelineEvent)
    requires EventOf(frame) == Some(e) && frame.id.Some? && e.eventId == frame.id
    requires frame.id.value !in c.seen && SortedEvents(c.events + [e])
    ensures Ingest(c, frame) == Client(frame.id, c.events + [e], c.seen + {frame.id.value})
  {
    SortSorted(c.events + [e]);
  }

  lemma {:induction false} IdsBelow(sessionId: string, events: seq<LogEvent>, n: nat)
    requires forall i | 0 <= i < |events| :: events[i].seqNo < n
    ensures EventId(sessionId, n) !in Ids(sessionId, events)
  {
    if events != [] {
      IdsBelow(sessionId, events[..|events| - 1], n);
      EventIdInjective(sessionId, n, events[|events| - 1].seqNo);
    }
  }

  lemma IngestNext(sessionId: string, events: seq<LogEvent>, e: LogEvent)
    requires forall i, j | 0 <= i < j < |events + [e]| :: (events + [e])[i].seqNo < (events + [e])[j].seqNo
    ensures Ingest(Holding(sessionId, events), FrameFor(sessionId, e)) == Holding(sessionId, events + [e])
  {
    assert (events + [e])[..|events|] == events;
    assert forall i | 0 <= i < |events| :: events[i].seqNo < (events + [e])[|events|].seqNo;
    EventOfFrame(sessionId, e);
    IdsBelow(sessionId, events, e.seqNo);
    assert ShownAll(sessionId, events) + [Shown(sessionId, e)] == ShownAll(sessionId, events + [e]);
    IngestNew(Holding(sessionId, events), FrameFor(sessionId, e), Shown(sessionId, e));
  }

  lemma {:induction false} DeliverInOrder(sessionId: string, events: seq<LogEvent>, next: seq<LogEvent>)
    requires Ordered(events + next)
    ensures Deliver(Holding(sessionId, events), FramesFor(sessionId, next)) == Holding(sessionId, events + next)
    decreases |next|
  {
    hide Deliver, Ingest, Holding, FramesFor, FrameFor;
    if next == [] {
      assert events + next == events;
      DeliverDone(Holding(sessionId, events), FramesFor(sessionId, next));
    } else {
      var e, tail := next[0], next[1..];
      assert events + next == (events + [e]) + tail;
      OrderedStart(events, e, tail);
      IngestNext(sessionId, events, e);
      DeliverNext(Holding(sessionId, events), FramesFor(sessionId, next), 0);
      assert FramesFor(sessionId, next)[0..] == FramesFor(sessionId, next);
      assert FramesFor(sessionId, next)[1..] == FramesFor(sessionId, tail);
      DeliverInOrder(sessionId, events + [e], tail);
    }
  }

  lemma OrderedStart(events: seq<LogEvent>, e: LogEvent, tail: seq<LogEvent>)
    requires Ordered((events + [e]) + tail)
    ensures forall i, j | 0 <= i < j < |events + [e]| :: (events + [e])[i].seqNo < (events + [e])[j].seqNo
  {
    assert forall i | 0 <= i < |events + [e]| :: ((events + [e]) + tail)[i] == (events + [e])[i];
  }

  // ---- Every run of connections ------------------------------------------

  /**
   * One connection: the log when it opened, everything written to it, and the part of the
   * text the client received before the connection was cut.
   */
  datatype Connection = Connection(log: seq<LogEvent>, items: seq<Item>, received: string)

  /** The server replays after the client's cursor, at most `limit` events; heartbeats fall anywhere. */
  ghost predicate Served(sessionId: string, c: Client, con: Connection, limit: nat) {
    && Ordered(con.log)
    && Sends(con.items) == Replay(sessionId, EventsAfter(con.log, Cursor(sessionId, c.lastEventId), limit))
    && con.received <= Wire(con.items)
  }

  function AfterConnection(c: Client, con: Connection): Client {
    Deliver(c, Decode(con.received).frames)
  }

  lemma StaysInStep(sessionId: string, log: seq<LogEvent>, more: seq<LogEvent>, c: Client, k: nat)
    requires log <= more && InStep(sessionId, log, c, k)
    ensures InStep(sessionId, more, c, k)
  {
    assert Visible(log) <= Visible(more);
    assert Visible(log)[..k] == Visible(more)[..k];
    if k > 0 { assert Visible(log)[..k][k - 1] == Visible(more)[..k][k - 1]; }
  }

  /** The events a connection would bring a client that has the first k. */
  function Page(log: seq<LogEvent>, k: nat, limit: nat): seq<LogEvent>
    requires k <= |Visible(log)|
  {
    Visible(log)[k..Min(k + limit, |Visible(log)|)]
  }

  /** What a connection carries, and that a cut leaves a prefix of it. */
  lemma ConnectionFrames(sessionId: string, c: Client, k: nat, con: Connection, limit: nat)
    requires Served(sessionId, c, con, limit) && InStep(sessionId, con.log, c, k)
    ensures var page := Page(con.log, k, limit);
            && Sent(con.items) == FramesFor(sessionId, page[..Sendable(sessionId, page)])
            && Decode(con.received).frames <= Sent(con.items)
            && (con.received == Wire(con.items) ==> Decode(con.received).frames == Sent(con.items))
  {
    hide WireText, Accepted, FrameOfItem, Holding, Decode, Cursor, SafeId, Sent, Wire, Replay, Sends;
    ReplayContinues(sessionId, con.log, c, k, limit);
    SentReplay(sessionId, Page(con.log, k, limit));
    SentOfSends(con.items);
    CutWire(con.items, con.received);
    WireRoundTrip(con.items);
  }

  lemma PageSlice(log: seq<LogEvent>, k: nat, limit: nat, n: nat, m: nat)
    requires Ordered(log) && k <= |Visible(log)| && m <= n <= |Page(log, k, limit)|
    ensures var v := Visible(log);
            && k + m <= |v| && Page(log, k, limit)[..n][..m] == v[k..k + m]
            && v[..k] + v[k..k + m] == v[..k + m] && Ordered(v[..k] + v[k..k + m])
  {
    var v := Visible(log);
    assert Ordered(v);
    assert v[..k] + v[k..k + m] == v[..k + m];
    assert forall i | 0 <= i < k + m :: v[..k + m][i] == v[i];
  }

  lemma FramesPrefix(sessionId: string, events: seq<LogEvent>, frames: seq<Frame>)
    requires frames <= FramesFor(sessionId, events)
    ensures frames == FramesFor(sessionId, events[..|frames|])
  {
  }

  /** A connection moves the client on by what it received, however it was cut. */
  lemma ConnectionStep(sessionId: string, c: Client, k: nat, con: Connection, limit: nat) returns (k': nat)
    requires Served(sessionId, c, con, limit) && InStep(sessionId, con.log, c, k)
    ensures k <= k' && InStep(sessionId, con.log, AfterConnection(c, con), k')
    ensures con.received == Wire(con.items) ==> k' == k + Sendable(sessionId, Page(con.log, k, limit))
  {
    hide WireText, Accepted, FrameOfItem, Holding, Decode, Cursor, SafeId, Sent, Wire, Replay, Sends, FramesFor, Sendable, Ordered, Page, Visible;
    ConnectionFrames(sessionId, c, k, con, limit);
    var v := Visible(con.log);
    var frames := Decode(con.received).frames;
    k' := k + |frames|;
    var page := Page(con.log, k, limit);
    FramesPrefix(sessionId, page[..Sendable(sessionId, page)], frames);
    PageSlice(con.log, k, limit, Sendable(sessionId, page), |frames|);
    DeliverInOrder(sessionId, v[..k], v[k..k']);
  }

  /** A run: each connection sees the log of the one before, possibly grown. */
  ghost predicate ValidRun(sessionId: string, c: Client, log: seq<LogEvent>, run: seq<Connection>, limit: nat)
    decreases run
  {
    run != [] ==>
      && log <= run[0].log
      && Served(sessionId, c, run[0], limit)
      && ValidRun(sessionId, AfterConnection(c, run[0]), run[0].log, run[1..], limit)
  }

  function AfterRun(c: Client, run: seq<Connection>): Client
    decreases run
  {
    if run == [] then c else AfterRun(AfterConnection(c, run[0]), run[1..])
  }

  function LastLog(log: seq<LogEvent>, run: seq<Connection>): seq<LogEvent> {
    if run == [] then log else run[|run| - 1].log
  }

  lemma {:induction false} RunInStep(sessionId: string, c: Client, log: seq<LogEvent>, k: nat, run: seq<Connection>, limit: nat)
    returns (k': nat)
    requires ValidRun(sessionId, c, log, run, limit)
    ensures InStep(sessionId, log, c, k) ==> k <= k' && InStep(sessionId, LastLog(log, run), AfterRun(c, run), k')
    decreases run
  {
    hide Served, Holding;
    k' := k;
    if run != [] && InStep(sessionId, log, c, k) {
      StaysInStep(sessionId, log, run[0].log, c, k);
      var k1 := ConnectionStep(sessionId, c, k, run[0], limit);
      k' := RunInStep(sessionId, AfterConnection(c, run[0]), run[0].log, k1, run[1..], limit);
    }
  }

  /** The event is shown as it is: under its own kind, where that is well formed, and its own id. */
  predicate Shows(sessionId: string, t: TimelineEvent, e: LogEvent) {
    && t.sequenceNumber == e.seqNo && t.summary == e.summary && t.eventId == Some(sessionId + ":" + Digits(e.seqNo))
    && t.eventType == if PlainKind(e.kind) then e.kind else "message"
  }

  lemma HeldAreShown(sessionId: string, log: seq<LogEvent>, c: Client, k: nat)
    requires InStep(sessionId, log, c, k)
    ensures |c.events| == k && forall i | 0 <= i < k :: Shows(sessionId, c.events[i], Visible(log)[i])
    ensures c.lastEventId == if k == 0 then None else Some(sessionId + ":" + Digits(Visible(log)[k - 1].seqNo))
  {
  }

  /**
   * Resume is exact: after any number of connections, each cut at any character, the
   * client shows a gap-free, duplicate-free, ordered prefix of the deliverable events, each
   * as it is in the log, and its cursor names the last one.
   */
  lemma ResumeIsExact(sessionId: string, run: seq<Connection>, limit: nat)
    requires ValidRun(sessionId, NEW_CLIENT, [], run, limit)
    ensures exists k :: InStep(sessionId, LastLog([], run), AfterRun(NEW_CLIENT, run), k)
    ensures var c, v := AfterRun(NEW_CLIENT, run), Visible(LastLog([], run)); var k := |c.events|;
            && k <= |v| && (forall i | 0 <= i < k :: Shows(sessionId, c.events[i], v[i]))
            && c.lastEventId == if k == 0 then None else Some(sessionId + ":" + Digits(v[k - 1].seqNo))
  {
    hide AfterRun, ValidRun, Holding;
    FirstStep(sessionId, []);
    var k := RunInStep(sessionId, NEW_CLIENT, [], 0, run, limit);
    HeldAreShown(sessionId, LastLog([], run), AfterRun(NEW_CLIENT, run), k);
  }

  /**
   * Once anything is shown, it is a prefix of the whole log exactly when the log is not
   * numbered from 0: an event numbered 0 is never replayed, since replay is strictly after
   * the default cursor 0.
   */
  lemma PrefixIffNotNumberedFromZero(sessionId: string, run: seq<Connection>, limit: nat)
    requires ValidRun(sessionId, NEW_CLIENT, [], run, limit)
    ensures var log, shown := LastLog([], run), AfterRun(NEW_CLIENT, run).events;
            && (shown != [] ==> log != [] && (shown <= ShownAll(sessionId, log) <==> log[0].seqNo != 0))
            && (shown == [] ==> shown <= ShownAll(sessionId, log))
  {
    hide Served, AfterConnection, AfterRun;
    assert InStep(sessionId, [], NEW_CLIENT, 0);
    var k := RunInStep(sessionId, NEW_CLIENT, [], 0, run, limit);
    LogOrdered(sessionId, NEW_CLIENT, [], run, limit);
    ShownPrefix(sessionId, LastLog([], run), AfterRun(NEW_CLIENT, run), k);
  }

  lemma {:induction false} LogOrdered(sessionId: string, c: Client, log: seq<LogEvent>, run: seq<Connection>, limit: nat)
    requires ValidRun(sessionId, c, log, run, limit) && Ordered(log)
    ensures Ordered(LastLog(log, run))
    decreases run
  {
    hide AfterConnection, Ordered, Served;
    if run != [] { ServedOrdered(sessionId, c, run[0], limit); LogOrdered(sessionId, AfterConnection(c, run[0]), run[0].log, run[1..], limit); }
  }

  lemma ServedOrdered(sessionId: string, c: Client, con: Connection, limit: nat)
    requires Served(sessionId, c, con, limit)
    ensures Ordered(con.log)
  {
  }

  lemma ShownPrefix(sessionId: string, log: seq<LogEvent>, c: Client, k: nat)
    requires Ordered(log) && InStep(sessionId, log, c, k)
    ensures c.events <= ShownAll(sessionId, log) <==> k == 0 || log[0].seqNo != 0
    ensures |c.events| == k
  {
    hide Ids, EventId, ShownAll, Shown;
    var v, all := Visible(log), ShownAll(sessionId, log);
    assert forall i | 0 <= i < k :: c.events[i] == Shown(sessionId, v[..k][i]);
    if k > 0 && log[0].seqNo == 0 {
      assert c.events[0] == Shown(sessionId, log[1]) && all[0] == Shown(sessionId, log[0]);
      ShownDiffer(sessionId, log[1], log[0]);
    } else if k > 0 {
      assert c.events == all[..k];
    }
  }

  lemma ShownDiffer(sessionId: string, a: LogEvent, b: LogEvent)
    requires a.seqNo != b.seqNo
    ensures Shown(sessionId, a) != Shown(sessionId, b)
  {
  }

  // ---- Catching up -------------------------------------------------------

  predicate AllSafe(sessionId: string, events: seq<LogEvent>) {
    forall i | 0 <= i < |events| :: SafeId(EventId(sessionId, events[i].seqNo))
  }

  /** Ids of up to 239 plain characters leave every event of a log sendable. */
  lemma PlainSessionSafe(sessionId: string, log: seq<LogEvent>)
    requires Ordered(log) && PlainId(sessionId) && |sessionId| <= 239
    ensures AllSafe(sessionId, log)
  {
    hide SafeId;
    assert Pow10(4) == 10_000 && Pow10(8) == 100_000_000 && Pow10(12) == 1_000_000_000_000;
    assert Pow10(16) == 10_000_000_000_000_000;
    forall i | 0 <= i < |log| ensures SafeId(EventId(sessionId, log[i].seqNo)) {
      var id, digits := EventId(sessionId, log[i].seqNo), Digits(log[i].seqNo);
      DigitsBelow(log[i].seqNo, 16);
      assert forall j | 0 <= j < |id| :: id[j] == if j < |sessionId| then sessionId[j] else if j == |sessionId| then ':' else digits[j - |sessionId| - 1];
      assert forall j | 0 <= j < |digits| :: digits[j] in digits;
      PlainIsSafe(id);
    }
  }

  function Pow10(k: nat): nat { if k == 0 then 1 else 10 * Pow10(k - 1) }

  lemma {:induction false} DigitsBelow(n: nat, k: nat)
    requires k > 0 && n < Pow10(k)
    ensures |Digits(n)| <= k
  {
    if n >= 10 { DigitsBelow(n / 10, k - 1); }
  }

  lemma {:induction false} SendableAll(sessionId: string, events: seq<LogEvent>)
    requires AllSafe(sessionId, events)
    ensures Sendable(sessionId, events) == |events|
  {
    if events != [] { SendableAll(sessionId, events[1..]); }
  }

  lemma PageSafe(sessionId: string, log: seq<LogEvent>, k: nat, limit: nat)
    requires AllSafe(sessionId, log) && k <= |Visible(log)|
    ensures AllSafe(sessionId, Page(log, k, limit))
    ensures k + |Page(log, k, limit)| == Min(k + limit, |Visible(log)|)
  {
    hide SafeId, EventId;
    var v, page, shift := Visible(log), Page(log, k, limit), |log| - |Visible(log)|;
    assert forall i | 0 <= i < |v| :: v[i] == log[i + shift];
    assert forall i | 0 <= i < |page| :: page[i] == log[i + k + shift];
  }

  /** Connections that see this log and are read to their end. */
  predicate Uncut(log: seq<LogEvent>, run: seq<Connection>) {
    forall i | 0 <= i < |run| :: run[i].log == log && run[i].received == Wire(run[i].items)
  }

  /** How far n pages bring a client that has k of so many events. */
  function Reached(k: nat, n: nat, limit: nat, size: nat): nat { Min(k + n * limit, size) }

  /** Each uncut connection brings the client a page further, until it shows everything there is. */
  lemma {:induction false} CatchesUp(sessionId: string, log: seq<LogEvent>, c: Client, k: nat, run: seq<Connection>, limit: nat)
    requires ValidRun(sessionId, c, log, run, limit) && Uncut(log, run) && AllSafe(sessionId, log)
    ensures InStep(sessionId, log, c, k) ==>
              InStep(sessionId, log, AfterRun(c, run), Reached(k, |run|, limit, |Visible(log)|))
    decreases run
  {
    hide Served, AfterConnection, Holding, SafeId, EventId, Wire, Reached, Page, AllSafe;
    if InStep(sessionId, log, c, k) && run == [] {
      NoPages(k, limit, |Visible(log)|);
    } else if InStep(sessionId, log, c, k) {
      var page := Page(log, k, limit);
      PageSafe(sessionId, log, k, limit);
      SendableAll(sessionId, page);
      var k1 := ConnectionStep(sessionId, c, k, run[0], limit);
      CatchesUp(sessionId, log, AfterConnection(c, run[0]), k1, run[1..], limit);
      PageSum(k, |run|, limit, |Visible(log)|);
    }
  }

  lemma NoPages(k: nat, limit: nat, size: nat)
    requires k <= size
    ensures Reached(k, 0, limit, size) == k
  {
  }

  lemma PageSum(k: nat, n: nat, limit: nat, size: nat)
    requires n > 0 && k <= size
    ensures Reached(Min(k + limit, size), n - 1, limit, size) == Reached(k, n, limit, size)
  {
    assert n * limit == limit + (n - 1) * limit;
    assert (n - 1) * limit >= 0;
  }

  lemma {:induction false} ReplayIsSends(sessionId: string, events: seq<LogEvent>)
    ensures Sends(Replay(sessionId, events)) == Replay(sessionId, events)
  {
    hide EventId, Payload;
    if events != [] {
      ReplayIsSends(sessionId, events[1..]);
      assert Replay(sessionId, events)[1..] == Replay(sessionId, events[1..]);
    }
  }

  /** Any client can be served any number of uncut connections. */
  lemma {:induction false} UncutRunExists(sessionId: string, log: seq<LogEvent>, c: Client, n: nat, limit: nat)
    returns (run: seq<Connection>)
    requires Ordered(log)
    ensures |run| == n && Uncut(log, run) && ValidRun(sessionId, c, log, run, limit)
    decreases n
  {
    hide Ordered, Sends, Replay, Wire, Cursor, EventsAfter, AfterConnection;
    run := [];
    if n > 0 {
      var items := Replay(sessionId, EventsAfter(log, Cursor(sessionId, c.lastEventId), limit));
      ReplayIsSends(sessionId, EventsAfter(log, Cursor(sessionId, c.lastEventId), limit));
      var con := Connection(log, items, Wire(items));
      var rest := UncutRunExists(sessionId, log, AfterConnection(c, con), n - 1, limit);
      run := [con] + rest;
      assert run[1..] == rest;
    }
  }

  /** A client whose connections are cut no more comes to show every deliverable event. */
  lemma EventuallyComplete(sessionId: string, log: seq<LogEvent>, c: Client, k: nat) returns (run: seq<Connection>)
    requires Ordered(log) && AllSafe(sessionId, log) && InStep(sessionId, log, c, k)
    ensures ValidRun(sessionId, c, log, run, PAGE) && Uncut(log, run)
    ensures AfterRun(c, run) == Holding(sessionId, Visible(log))
  {
    hide Ordered, AllSafe, Holding, AfterRun, ValidRun, Uncut;
    var v := Visible(log);
    run := UncutRunExists(sessionId, log, c, |v|, PAGE);
    CatchesUp(sessionId, log, c, k, run, PAGE);
    assert Reached(k, |run|, PAGE, |v|) == |v|;
    assert v[..|v|] == v;
  }

  /** On any log numbered from 0 a client that catches up shows all but the first event. */
  lemma ZeroIsNeverShown(sessionId: string, log: seq<LogEvent>) returns (run: seq<Connection>)
    requires Ordered(log) && AllSafe(sessionId, log) && |log| > 1 && log[0].seqNo == 0
    ensures ValidRun(sessionId, NEW_CLIENT, [], run, PAGE) && LastLog([], run) == log
    ensures var shown := AfterRun(NEW_CLIENT, run).events;
            shown == ShownAll(sessionId, log[1..]) && !(shown <= ShownAll(sessionId, log))
  {
    hide Ordered, AllSafe, AfterRun, ValidRun, Uncut, Served, Sendable;
    FirstStep(sessionId, log);
    run := EventuallyComplete(sessionId, log, NEW_CLIENT, 0);
    if run == [] { NothingRun(NEW_CLIENT); HoldingNone(sessionId, Visible(log)); }
    FromNothing(sessionId, NEW_CLIENT, log, run, PAGE);
    SkippedDiffers(sessionId, log);
  }

  lemma FirstStep(sessionId: string, log: seq<LogEvent>)
    ensures InStep(sessionId, log, NEW_CLIENT, 0)
  {
  }

  lemma NothingRun(c: Client)
    ensures AfterRun(c, []) == c
  {
  }

  lemma HoldingNone(sessionId: string, events: seq<LogEvent>)
    ensures Holding(sessionId, events) == NEW_CLIENT ==> events == []
  {
  }

  lemma FromNothing(sessionId: string, c: Client, log: seq<LogEvent>, run: seq<Connection>, limit: nat)
    requires ValidRun(sessionId, c, log, run, limit) && Uncut(log, run) && run != []
    ensures ValidRun(sessionId, c, [], run, limit) && LastLog([], run) == log
  {
    hide Served, AfterConnection;
  }

  lemma SkippedDiffers(sessionId: string, log: seq<LogEvent>)
    requires Ordered(log) && |log| > 1 && log[0].seqNo == 0
    ensures !(ShownAll(sessionId, log[1..]) <= ShownAll(sessionId, log))
  {
    hide ShownAll, Shown;
    ShownDiffer(sessionId, log[1], log[0]);
    assert ShownAll(sessionId, log[1..])[0] == Shown(sessionId, log[1..][0]);
    assert ShownAll(sessionId, log)[0] == Shown(sessionId, log[0]);
  }
}
