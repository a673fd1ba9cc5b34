/**
 * The outbox publisher (packages/queue/src/publisher.ts): rows of a durable ledger become
 * jobs. Any number of publishers work at once, each may crash anywhere, and workers act on
 * the queue meanwhile.
 */
module Outbox {
  import opened Basics
  import Queue

  /** bytes is the size of the payload a row maps to. */
  datatype Row = Row(id: nat, eventType: string, correlation: map<string, string>,
                     payload: map<string, string>, bytes: nat)

  const MAX_PAYLOAD_BYTES: nat := 32 * 1024

  /** The job type and queue of an event type. */
  function MappingOf(eventType: string): Option<(string, string)> {
    if eventType == "workflow.queued" then Some(("workflow.execute", "workflow-execution"))
    else if eventType == "webhook.accepted" then Some(("webhook.process", "webhook-processing"))
    else if eventType == "approval.resume_requested" then Some(("approval.resume", "approval-resume"))
    else None
  }

  predicate Known(row: Row) { MappingOf(row.eventType).Some? }

  function UniqueKey(row: Row): string { "outbox:" + Digits(row.id) }

  function RunId(row: Row): string {
    if "runId" in row.correlation then row.correlation["runId"]
    else if "runId" in row.payload then row.payload["runId"]
    else if "workflowRunId" in row.correlation then row.correlation["workflowRunId"]
    else ""
  }

  /** The envelope of a row, unless its payload is too large. */
  function JobOf(row: Row): Option<Queue.Job>
    requires Known(row)
  {
    if row.bytes > MAX_PAYLOAD_BYTES then None
    else
      var (jobType, queue) := MappingOf(row.eventType).value;
      Some(Queue.Job(UniqueKey(row), queue, jobType, 1, RunId(row), 0))
  }

  /** The job a row is to become, by its own fields; no other row becomes one. */
  predicate Becomes(row: Row, job: Queue.Job) {
    && row.bytes <= 32768 && job.key == "outbox:" + Digits(row.id) && job.version == 1 && job.generation == 0
    && (row.eventType == "workflow.queued" ==> job.jobType == "workflow.execute" && job.queue == "workflow-execution")
    && (row.eventType == "webhook.accepted" ==> job.jobType == "webhook.process" && job.queue == "webhook-processing")
    && (row.eventType == "approval.resume_requested" ==> job.jobType == "approval.resume" && job.queue == "approval-resume")
    && row.eventType in {"workflow.queued", "webhook.accepted", "approval.resume_requested"}
    && ("runId" in row.correlation ==> job.runId == row.correlation["runId"])
    && ("runId" !in row.correlation && "runId" in row.payload ==> job.runId == row.payload["runId"])
    && ("runId" !in row.correlation && "runId" !in row.payload ==>
          job.runId == if "workflowRunId" in row.correlation then row.correlation["workflowRunId"] else "")
  }

  lemma JobIsOfRow(row: Row)
    ensures Known(row) <==> row.eventType in {"workflow.queued", "webhook.accepted", "approval.resume_requested"}
    ensures Known(row) ==> (JobOf(row).None? <==> row.bytes > 32768)
    ensures Known(row) && JobOf(row).Some? ==> forall job :: Becomes(row, job) <==> job == JobOf(row).value
    ensures !Known(row) ==> forall job :: !Becomes(row, job)
  {
  }

  /** Distinct rows never share a job. */
  lemma KeysDiffer(a: Row, b: Row)
    ensures UniqueKey(a) == UniqueKey(b) <==> a.id == b.id
  {
    var p, q := Digits(a.id), Digits(b.id);
    if UniqueKey(a) == UniqueKey(b) {
      assert UniqueKey(a)[7..] == p && UniqueKey(b)[7..] == q;
      NatOfDigits(a.id);
      NatOfDigits(b.id);
    }
  }

  /** The ledger; port tells whether it offers the optional dead-letter operation. */
  datatype Ledger = Ledger(rows: seq<Row>, published: set<nat>, dead: set<nat>, cursor: nat, port: bool)

  function Handled(o: Ledger): set<nat> { o.published + o.dead }

  function Marked(o: Ledger, id: nat): Ledger {
    o.(published := o.published + {id}, cursor := Max(o.cursor, id))
  }

  function Buried(o: Ledger, id: nat): Ledger {
    o.(dead := o.dead + {id}, cursor := Max(o.cursor, id))
  }

  function RowsAfter(rows: seq<Row>, id: nat): seq<Row> {
    if rows == [] then [] else (if rows[0].id > id then [rows[0]] else []) + RowsAfter(rows[1..], id)
  }

  function ListUnpublished(o: Ledger, after: nat, limit: nat): seq<Row> {
    var rows := RowsAfter(o.rows, after);
    rows[..Min(limit, |rows|)]
  }

  // ---- Runs --------------------------------------------------------------

  /** Where a pass stands: rows still to do, the first of them enqueued and not yet marked. */
  datatype Pc = Listing(cursor: nat, limit: nat) | Working(rest: seq<Row>) | Marking(rest: seq<Row>)

  datatype Sys = Sys(ledger: Ledger, ops: seq<Queue.Op>, passes: map<nat, Pc>)

  datatype Step =
    | Append(row: Row)
    | Begin(pass: nat, limit: nat)
    | Do(pass: nat, at: int)
    | Crash(pass: nat)
    | Other(op: Queue.Op)

  predicate Allowed(sys: Sys, step: Step) {
    match step
    case Append(row) => row.id > (if sys.ledger.rows == [] then 0 else sys.ledger.rows[|sys.ledger.rows| - 1].id)
    case Begin(pass, _) => pass !in sys.passes
    case Do(pass, _) => pass in sys.passes
    case _ => true
  }

  /** A step that is not allowed changes nothing. */
  function Next(sys: Sys, step: Step): Sys {
    if !Allowed(sys, step) then sys
    else
      match step
      case Append(row) => sys.(ledger := sys.ledger.(rows := sys.ledger.rows + [row]))
      case Begin(pass, limit) => sys.(passes := sys.passes[pass := Listing(sys.ledger.cursor, limit)])
      case Crash(pass) => sys.(passes := sys.passes - {pass})
      case Other(op) => sys.(ops := sys.ops + [op])
      case Do(pass, at) => Advance(sys, pass, at)
  }

  /** One step of a pass; a row whose envelope is refused ends the pass, and so does the last row. */
  function Advance(sys: Sys, pass: nat, at: int): Sys
    requires pass in sys.passes
  {
    match sys.passes[pass]
    case Listing(cursor, limit) =>
      sys.(passes := sys.passes[pass := Working(ListUnpublished(sys.ledger, cursor, limit))])
    case Working(rest) =>
      if rest == [] then sys.(passes := sys.passes - {pass})
      else if Known(rest[0]) then
        match JobOf(rest[0])
        case None => sys.(passes := sys.passes - {pass})
        case Some(job) =>
          sys.(ops := sys.ops + [Queue.Enqueue(job, at)], passes := sys.passes[pass := Marking(rest)])
      else
        sys.(ledger := if sys.ledger.port then Buried(sys.ledger, rest[0].id) else sys.ledger,
             passes := sys.passes[pass := Working(rest[1..])])
    case Marking(rest) =>
      if rest == [] then sys.(passes := sys.passes - {pass})
      else sys.(ledger := Marked(sys.ledger, rest[0].id), passes := sys.passes[pass := Working(rest[1..])])
  }

  function Start(port: bool): Sys { Sys(Ledger([], {}, {}, 0, port), [], map[]) }

  function AfterRun(run: seq<Step>, port: bool): Sys {
    if run == [] then Start(port) else Next(AfterRun(run[..|run| - 1], port), run[|run| - 1])
  }

  // ---- What every run keeps ----------------------------------------------

  predicate Ascending(rows: seq<Row>) { forall i, j | 0 <= i < j < |rows| :: rows[i].id < rows[j].id }

  /** Nothing is left to do for the row, or nothing ever will be. */
  predicate Settled(o: Ledger, row: Row) { row.id in Handled(o) || (!Known(row) && !o.port) }

  predicate SettledBefore(o: Ledger, n: nat)
    requires n <= |o.rows|
  {
    forall k | 0 <= k < n :: Settled(o, o.rows[k])
  }

  /** A piece of the ledger with nothing unsettled before it. */
  ghost predicate Placed(o: Ledger, rest: seq<Row>) {
    exists i: nat :: IsPieceAt(o, rest, i) && SettledBefore(o, i)
  }

  predicate IsPieceAt(o: Ledger, rest: seq<Row>, i: nat) {
    i + |rest| <= |o.rows| && o.rows[i..i + |rest|] == rest
  }

  predicate SettledUpTo(o: Ledger, id: nat) {
    forall k | 0 <= k < |o.rows| && o.rows[k].id <= id :: Settled(o, o.rows[k])
  }

  predicate Handed(ops: seq<Queue.Op>, row: Row) {
    HandedSince(ops, 0, row)
  }

  /** The row's job was enqueued by one of the operations from that place on. */
  predicate HandedSince(ops: seq<Queue.Op>, from: nat, row: Row) {
    exists i | from <= i < |ops| :: ops[i].Enqueue? && Becomes(row, ops[i].job)
  }

  ghost predicate PassOk(o: Ledger, ops: seq<Queue.Op>, pc: Pc) {
    match pc
    case Listing(cursor, _) => cursor <= o.cursor && SettledUpTo(o, cursor)
    case Working(rest) => Placed(o, rest)
    case Marking(rest) => rest != [] && Placed(o, rest) && Handed(ops, rest[0])
  }

  predicate PublishedOk(o: Ledger, ops: seq<Queue.Op>, id: nat) {
    exists k | 0 <= k < |o.rows| :: o.rows[k].id == id && Handed(ops, o.rows[k])
  }

  predicate DeadOk(o: Ledger, id: nat) {
    o.port && exists k | 0 <= k < |o.rows| :: o.rows[k].id == id && !Known(o.rows[k])
  }

  /**
   * Each row recorded as published was handed over, each dead-lettered one is unknown, and
   * the cursor is the last of them.
   */
  ghost predicate RecordsOk(o: Ledger, ops: seq<Queue.Op>) {
    && (forall id | id in o.published :: PublishedOk(o, ops, id))
    && (forall id | id in o.dead :: DeadOk(o, id))
    && (forall id | id in Handled(o) :: id <= o.cursor)
    && (o.cursor == 0 || o.cursor in Handled(o))
  }

  ghost predicate Inv(sys: Sys) {
    && Ascending(sys.ledger.rows)
    && (forall k | 0 <= k < |sys.ledger.rows| :: sys.ledger.rows[k].id > 0)
    && SettledUpTo(sys.ledger, sys.ledger.cursor)
    && RecordsOk(sys.ledger, sys.ops)
    && (forall pass | pass in sys.passes :: PassOk(sys.ledger, sys.ops, sys.passes[pass]))
  }

  lemma {:induction false} AllRowsAfter(rows: seq<Row>, id: nat)
    requires forall k | 0 <= k < |rows| :: rows[k].id > id
    ensures RowsAfter(rows, id) == rows
  {
    if rows != [] {
      AllRowsAfter(rows[1..], id);
      assert [rows[0]] + rows[1..] == rows;
    }
  }

  /** The first n rows are those up to the id. */
  predicate SplitAt(rows: seq<Row>, n: nat, id: nat) {
    && n <= |rows|
    && (forall k | 0 <= k < n :: rows[k].id <= id) && (forall k | n <= k < |rows| :: rows[k].id > id)
  }

  lemma SplitCons(rows: seq<Row>, n: nat, id: nat)
    requires rows != [] && rows[0].id <= id && SplitAt(rows[1..], n, id)
    ensures SplitAt(rows, n + 1, id) && rows[1..][n..] == rows[n + 1..]
  {
    assert forall k | 1 <= k < |rows| :: rows[k] == rows[1..][k - 1];
  }

  lemma AscendingSplit(rows: seq<Row>, id: nat)
    requires Ascending(rows) && rows != []
    ensures Ascending(rows[1..]) && (rows[0].id > id ==> SplitAt(rows, 0, id))
  {
  }

  lemma RowsAfterPast(rows: seq<Row>, id: nat)
    requires rows != [] && rows[0].id <= id
    ensures RowsAfter(rows, id) == RowsAfter(rows[1..], id)
  {
  }

  lemma {:induction false} RowsAfterIsTail(rows: seq<Row>, id: nat)
    requires Ascending(rows)
    ensures |RowsAfter(rows, id)| <= |rows|
    ensures var n := |rows| - |RowsAfter(rows, id)|; SplitAt(rows, n, id) && RowsAfter(rows, id) == rows[n..]
  {
    hide SplitAt, Ascending, RowsAfter;
    if rows == [] {
      NoRowsAfter(id);
    } else {
      AscendingSplit(rows, id);
      if rows[0].id > id {
        AllAfter(rows, id);
      } else {
        var rest := rows[1..];
        RowsAfterPast(rows, id);
        RowsAfterIsTail(rest, id);
        var m := |rest| - |RowsAfter(rest, id)|;
        SplitCons(rows, m, id);
        assert RowsAfter(rows, id) == rows[m + 1..];
      }
    }
  }

  lemma NoRowsAfter(id: nat)
    ensures RowsAfter([], id) == [] && SplitAt([], 0, id)
  {
  }

  lemma {:induction false} RowsAfterSnoc(rows: seq<Row>, row: Row, id: nat)
    ensures RowsAfter(rows + [row], id) == RowsAfter(rows, id) + if row.id > id then [row] else []
  {
    if rows == [] {
      assert rows + [row] == [row] && [row][1..] == [];
    } else {
      assert (rows + [row])[1..] == rows[1..] + [row];
      RowsAfterSnoc(rows[1..], row, id);
      Regroup(if rows[0].id > id then [rows[0]] else [], RowsAfter(rows[1..], id), if row.id > id then [row] else []);
    }
  }

  lemma Regroup(a: seq<Row>, b: seq<Row>, c: seq<Row>)
    ensures a + (b + c) == (a + b) + c
  {
  }

  lemma AllAfter(rows: seq<Row>, id: nat)
    requires SplitAt(rows, 0, id)
    ensures RowsAfter(rows, id) == rows
  {
    AllRowsAfter(rows, id);
  }

  lemma ListedPlaced(o: Ledger, cursor: nat, limit: nat)
    requires Ascending(o.rows) && SettledUpTo(o, cursor)
    ensures Placed(o, ListUnpublished(o, cursor, limit))
  {
    hide RowsAfter, Settled;
    RowsAfterIsTail(o.rows, cursor);
    var listed := ListUnpublished(o, cursor, limit);
    var n := |o.rows| - |RowsAfter(o.rows, cursor)|;
    SliceTwice(o.rows, n, |listed|);
    assert IsPieceAt(o, listed, n) && SettledBefore(o, n);
  }

  lemma SliceTwice(rows: seq<Row>, n: nat, m: nat)
    requires n + m <= |rows|
    ensures rows[n..][..m] == rows[n..n + m]
  {
  }

  /** What was settled stays settled as rows arrive and rows are handled. */
  ghost predicate Grows(o: Ledger, o': Ledger) {
    && |o.rows| <= |o'.rows| && o'.rows[..|o.rows|] == o.rows && o'.port == o.port
    && Handled(o) <= Handled(o') && o.cursor <= o'.cursor
  }

  lemma PlacedStays(o: Ledger, o': Ledger, rest: seq<Row>)
    requires Grows(o, o') && Placed(o, rest)
    ensures Placed(o', rest)
  {
    var i: nat :| IsPieceAt(o, rest, i) && SettledBefore(o, i);
    assert o'.rows[i..i + |rest|] == o.rows[i..i + |rest|];
    assert forall k | 0 <= k < i :: o'.rows[k] == o.rows[k];
    assert IsPieceAt(o', rest, i) && SettledBefore(o', i);
  }

  /** Settling the first row of a piece leaves the rest in place, and everything up to it settled. */
  lemma PlacedNext(o: Ledger, o': Ledger, rest: seq<Row>)
    requires Ascending(o.rows) && rest != [] && Placed(o, rest)
    requires o'.rows == o.rows && Grows(o, o') && Settled(o', rest[0])
    ensures Placed(o', rest[1..]) && SettledUpTo(o', rest[0].id)
    ensures exists k | 0 <= k < |o.rows| :: o.rows[k] == rest[0]
  {
    var i: nat :| IsPieceAt(o, rest, i) && SettledBefore(o, i);
    assert o.rows[i] == rest[0];
    assert o'.rows[i + 1..i + 1 + |rest[1..]|] == rest[1..];
    assert IsPieceAt(o', rest[1..], i + 1) && SettledBefore(o', i + 1);
  }

  lemma HandedStays(ops: seq<Queue.Op>, op: Queue.Op, row: Row)
    requires Handed(ops, row)
    ensures Handed(ops + [op], row)
  {
    hide Becomes;
    var i :| 0 <= i < |ops| && ops[i].Enqueue? && Becomes(row, ops[i].job);
    assert (ops + [op])[i] == ops[i];
  }

  /** The same operations, or one more. */
  predicate Longer(ops: seq<Queue.Op>, ops': seq<Queue.Op>) {
    ops' == ops || (|ops'| == |ops| + 1 && ops'[..|ops|] == ops)
  }

  lemma SettledStays(o: Ledger, o': Ledger, id: nat)
    requires Ascending(o'.rows) && Grows(o, o') && SettledUpTo(o, id)
    requires forall k | |o.rows| <= k < |o'.rows| :: id < o'.rows[k].id
    ensures SettledUpTo(o', id)
  {
    assert forall k | 0 <= k < |o.rows| :: o'.rows[k] == o.rows[k];
  }

  lemma PassStays(o: Ledger, ops: seq<Queue.Op>, o': Ledger, ops': seq<Queue.Op>, pc: Pc)
    requires Ascending(o'.rows) && Grows(o, o') && SettledUpTo(o', o'.cursor)
    requires Longer(ops, ops')
    requires PassOk(o, ops, pc)
    ensures PassOk(o', ops', pc)
  {
    hide Ascending, Handed, Settled;
    match pc
    case Listing(cursor, _) =>
    case Working(rest) => PlacedStays(o, o', rest);
    case Marking(rest) =>
      PlacedStays(o, o', rest);
      if ops' != ops {
        assert ops' == ops + [ops'[|ops|]];
        HandedStays(ops, ops'[|ops|], rest[0]);
      }
  }

  /** A step keeps the invariant if it grows the ledger or the queue, and moves passes to good places. */
  lemma InvKept(sys: Sys, sys': Sys)
    requires Inv(sys) && Grows(sys.ledger, sys'.ledger)
    requires Ascending(sys'.ledger.rows) && forall k | 0 <= k < |sys'.ledger.rows| :: sys'.ledger.rows[k].id > 0
    requires SettledUpTo(sys'.ledger, sys'.ledger.cursor) && RecordsOk(sys'.ledger, sys'.ops)
    requires Longer(sys.ops, sys'.ops)
    requires forall p | p in sys'.passes ::
               PassOk(sys'.ledger, sys'.ops, sys'.passes[p]) || (p in sys.passes && sys'.passes[p] == sys.passes[p])
    ensures Inv(sys')
  {
    hide Ascending, RecordsOk, SettledUpTo, Grows, PassOk, Longer;
    forall p | p in sys'.passes ensures PassOk(sys'.ledger, sys'.ops, sys'.passes[p]) {
      if !PassOk(sys'.ledger, sys'.ops, sys'.passes[p]) {
        PassStays(sys.ledger, sys.ops, sys'.ledger, sys'.ops, sys.passes[p]);
      }
    }
  }

  lemma RecordsStay(o: Ledger, ops: seq<Queue.Op>, op: Queue.Op)
    requires RecordsOk(o, ops)
    ensures RecordsOk(o, ops + [op])
  {
    forall id | id in o.published ensures PublishedOk(o, ops + [op], id) {
      PublishedStays(o, ops, op, id);
    }
  }

  lemma PublishedStays(o: Ledger, ops: seq<Queue.Op>, op: Queue.Op, id: nat)
    requires PublishedOk(o, ops, id)
    ensures PublishedOk(o, ops + [op], id)
  {
    hide Handed;
    var k :| 0 <= k < |o.rows| && o.rows[k].id == id && Handed(ops, o.rows[k]);
    HandedStays(ops, op, o.rows[k]);
  }

  lemma GrowsSelf(o: Ledger)
    ensures Grows(o, o)
  {
  }

  lemma AppendKeeps(sys: Sys, row: Row)
    requires Inv(sys) && Allowed(sys, Append(row))
    ensures Inv(Next(sys, Append(row)))
  {
    hide PassOk, Handed, Known, Settled, RecordsOk, Placed;
    var o, o' := sys.ledger, sys.ledger.(rows := sys.ledger.rows + [row]);
    CursorInLedger(o, sys.ops);
    AppendedOk(o, o', row);
    SettledStays(o, o', o.cursor);
    AppendRecords(o, o', sys.ops);
    InvKept(sys, Next(sys, Append(row)));
  }

  lemma AppendedOk(o: Ledger, o': Ledger, row: Row)
    requires Ascending(o.rows) && (forall k | 0 <= k < |o.rows| :: o.rows[k].id > 0)
    requires o' == o.(rows := o.rows + [row]) && row.id > (if o.rows == [] then 0 else o.rows[|o.rows| - 1].id)
    requires o.cursor == 0 || exists k | 0 <= k < |o.rows| :: o.rows[k].id == o.cursor
    ensures Ascending(o'.rows) && Grows(o, o') && o.rows <= o'.rows && o.cursor < row.id
    ensures forall k | 0 <= k < |o'.rows| :: o'.rows[k].id > 0
  {
    assert forall k | 0 <= k < |o.rows| :: o'.rows[k] == o.rows[k];
    assert o'.rows[..|o.rows|] == o.rows;
    assert forall k | 0 <= k < |o.rows| :: o.rows[k].id < row.id;
  }

  lemma CursorInLedger(o: Ledger, ops: seq<Queue.Op>)
    requires RecordsOk(o, ops)
    ensures o.cursor == 0 || exists k | 0 <= k < |o.rows| :: o.rows[k].id == o.cursor
  {
  }

  lemma AppendRecords(o: Ledger, o': Ledger, ops: seq<Queue.Op>)
    requires RecordsOk(o, ops) && o' == o.(rows := o'.rows) && o.rows <= o'.rows
    ensures RecordsOk(o', ops)
  {
    hide PublishedOk, DeadOk;
    assert o'.published == o.published && o'.dead == o.dead && Handled(o') == Handled(o) && o'.cursor == o.cursor;
    forall id | id in o'.published ensures PublishedOk(o', ops, id) { MoreRows(o, o', ops, id); }
    forall id | id in o'.dead ensures DeadOk(o', id) { MoreRows(o, o', ops, id); }
  }

  lemma MoreRows(o: Ledger, o': Ledger, ops: seq<Queue.Op>, id: nat)
    requires o.rows <= o'.rows && o'.port == o.port
    ensures PublishedOk(o, ops, id) ==> PublishedOk(o', ops, id)
    ensures DeadOk(o, id) ==> DeadOk(o', id)
  {
    hide Handed, Known;
    assert forall k | 0 <= k < |o.rows| :: o'.rows[k] == o.rows[k];
  }

  /** Handling the first row of a piece keeps the records true and moves the cursor with it. */
  lemma HandleKeeps(sys: Sys, pass: nat, rest: seq<Row>, o': Ledger)
    requires Inv(sys) && rest != [] && Placed(sys.ledger, rest)
    requires || (o' == Marked(sys.ledger, rest[0].id) && Handed(sys.ops, rest[0]))
             || (o' == Buried(sys.ledger, rest[0].id) && !Known(rest[0]) && sys.ledger.port)
             || (o' == sys.ledger && !Known(rest[0]) && !sys.ledger.port)
    ensures Inv(sys.(ledger := o', passes := sys.passes[pass := Working(rest[1..])]))
  {
    hide PassOk, Known, Handed, Placed, RecordsOk, Ascending;
    var o := sys.ledger;
    assert o.rows[..|o.rows|] == o.rows;
    PlacedNext(o, o', rest);
    SettledStays(o, o', o.cursor);
    HandleRecords(o, o', sys.ops, rest[0]);
    WorkingOk(o', sys.ops, rest[1..]);
    InvKept(sys, sys.(ledger := o', passes := sys.passes[pass := Working(rest[1..])]));
  }

  lemma WorkingOk(o: Ledger, ops: seq<Queue.Op>, rest: seq<Row>)
    requires Placed(o, rest)
    ensures PassOk(o, ops, Working(rest))
  {
  }

  lemma HandleRecords(o: Ledger, o': Ledger, ops: seq<Queue.Op>, row: Row)
    requires RecordsOk(o, ops) && exists k | 0 <= k < |o.rows| :: o.rows[k] == row
    requires || (o' == Marked(o, row.id) && Handed(ops, row))
             || (o' == Buried(o, row.id) && !Known(row) && o.port)
             || o' == o
    ensures RecordsOk(o', ops)
  {
    hide PublishedOk, DeadOk, Handed, Known;
    RowRecorded(o, ops, row);
    assert o'.rows == o.rows && o'.port == o.port;
    assert Handled(o') <= Handled(o) + {row.id} && o.cursor <= o'.cursor;
    forall id | id in o'.published ensures PublishedOk(o', ops, id) {
      assert PublishedOk(o, ops, id);
      MoreRows(o, o', ops, id);
    }
    forall id | id in o'.dead ensures DeadOk(o', id) {
      assert DeadOk(o, id);
      MoreRows(o, o', ops, id);
    }
  }

  lemma RowRecorded(o: Ledger, ops: seq<Queue.Op>, row: Row)
    requires exists k | 0 <= k < |o.rows| :: o.rows[k] == row
    ensures Handed(ops, row) ==> PublishedOk(o, ops, row.id)
    ensures !Known(row) && o.port ==> DeadOk(o, row.id)
  {
    hide Handed, Known;
    var k :| 0 <= k < |o.rows| && o.rows[k] == row;
    assert o.rows[k].id == row.id;
  }

  lemma AdvanceKeeps(sys: Sys, pass: nat, at: int)
    requires Inv(sys) && pass in sys.passes
    ensures Inv(Advance(sys, pass, at))
  {
    hide RecordsOk, SettledUpTo, Grows, Known, JobOf, Placed, Handed, Ascending;
    var o, sys' := sys.ledger, Advance(sys, pass, at);
    assert PassOk(o, sys.ops, sys.passes[pass]);
    GrowsSelf(o);
    match sys.passes[pass]
    case Listing(cursor, limit) =>
      ListedPlaced(o, cursor, limit);
      InvKept(sys, sys');
    case Working(rest) =>
      if rest != [] && Known(rest[0]) && JobOf(rest[0]).Some? {
        EnqueueKeeps(sys, pass, rest, at);
      } else if rest != [] && !Known(rest[0]) {
        HandleKeeps(sys, pass, rest, sys'.ledger);
      } else {
        InvKept(sys, sys');
      }
    case Marking(rest) => HandleKeeps(sys, pass, rest, sys'.ledger);
  }

  lemma EnqueueKeeps(sys: Sys, pass: nat, rest: seq<Row>, at: int)
    requires Inv(sys) && rest != [] && Placed(sys.ledger, rest) && Known(rest[0]) && JobOf(rest[0]).Some?
    ensures Inv(Sys(sys.ledger, sys.ops + [Queue.Enqueue(JobOf(rest[0]).value, at)],
                    sys.passes[pass := Marking(rest)]))
  {
    hide RecordsOk, SettledUpTo, Known, JobOf, Placed, Ascending, Becomes;
    var op := Queue.Enqueue(JobOf(rest[0]).value, at);
    JobIsOfRow(rest[0]);
    GrowsSelf(sys.ledger);
    RecordsStay(sys.ledger, sys.ops, op);
    assert (sys.ops + [op])[|sys.ops|] == op;
    InvKept(sys, Sys(sys.ledger, sys.ops + [op], sys.passes[pass := Marking(rest)]));
  }

  lemma InvStep(sys: Sys, step: Step)
    requires Inv(sys)
    ensures Inv(Next(sys, step))
  {
    hide RecordsOk, SettledUpTo, Grows, PassOk, Advance, Ascending;
    var sys' := Next(sys, step);
    GrowsSelf(sys.ledger);
    if Allowed(sys, step) {
      match step
      case Append(row) => AppendKeeps(sys, row);
      case Begin(pass, limit) => BeginOk(sys, limit); InvKept(sys, sys');
      case Crash(pass) => InvKept(sys, sys');
      case Other(op) => RecordsStay(sys.ledger, sys.ops, op); InvKept(sys, sys');
      case Do(pass, at) => AdvanceKeeps(sys, pass, at);
    }
  }

  lemma BeginOk(sys: Sys, limit: nat)
    requires Inv(sys)
    ensures PassOk(sys.ledger, sys.ops, Listing(sys.ledger.cursor, limit))
  {
  }

  lemma {:induction false} AlwaysInv(run: seq<Step>, port: bool)
    ensures Inv(AfterRun(run, port)) && AfterRun(run, port).ledger.port == port
  {
    hide Inv;
    if run == [] {
      StartInv(port);
    } else {
      AlwaysInv(run[..|run| - 1], port);
      InvStep(AfterRun(run[..|run| - 1], port), run[|run| - 1]);
    }
  }

  lemma StartInv(port: bool)
    ensures Inv(Start(port))
  {
  }

  // ---- Main results ------------------------------------------------------

  /** The rows handled are the first so many of the ledger. */
  ghost predicate HandledIsPrefix(o: Ledger) {
    exists n: nat :: HandledFirst(o, n)
  }

  predicate HandledFirst(o: Ledger, n: nat) {
    n <= |o.rows| && forall k | 0 <= k < |o.rows| :: o.rows[k].id in Handled(o) <==> k < n
  }

  /** A row of unknown type that the cursor has passed, when nothing can dead-letter it. */
  predicate Stranded(o: Ledger) {
    !o.port && exists k | 0 <= k < |o.rows| :: o.rows[k].id <= o.cursor && !Known(o.rows[k])
  }

  /**
   * Handled rows form a prefix of the ledger exactly when the ledger can dead-letter, or
   * the cursor has passed no row of unknown type.
   */
  lemma PrefixIffNoneStranded(run: seq<Step>, port: bool)
    ensures var o := AfterRun(run, port).ledger; HandledIsPrefix(o) <==> !Stranded(o)
  {
    var sys := AfterRun(run, port);
    var o := sys.ledger;
    AlwaysInv(run, port);
    if !Stranded(o) {
      var n := UpTo(o);
      forall k | 0 <= k < |o.rows| ensures o.rows[k].id in Handled(o) <==> k < n {
        assert o.rows[k].id <= o.cursor ==> Settled(o, o.rows[k]);
      }
      assert HandledFirst(o, n);
    } else {
      var k :| 0 <= k < |o.rows| && o.rows[k].id <= o.cursor && !Known(o.rows[k]);
      UnknownNeverHandled(sys, k);
      CursorInLedger(o, sys.ops);
    }
  }

  /** How many rows lie at or below the cursor. */
  lemma UpTo(o: Ledger) returns (n: nat)
    requires Ascending(o.rows)
    ensures n <= |o.rows| && forall k | 0 <= k < |o.rows| :: o.rows[k].id <= o.cursor <==> k < n
  {
    RowsAfterIsTail(o.rows, o.cursor);
    n := |o.rows| - |RowsAfter(o.rows, o.cursor)|;
  }

  lemma UnknownNeverHandled(sys: Sys, k: nat)
    requires Inv(sys) && !sys.ledger.port && k < |sys.ledger.rows| && !Known(sys.ledger.rows[k])
    ensures sys.ledger.rows[k].id !in Handled(sys.ledger)
  {
    var o := sys.ledger;
    JobIsOfRow(o.rows[k]);
    assert o.rows[k].id in o.published ==> PublishedOk(o, sys.ops, o.rows[k].id);
    assert forall j | 0 <= j < |o.rows| && o.rows[j].id == o.rows[k].id :: j == k;
  }

  /** No row the queue could take is ever passed over, and a row is marked only after its job was handed over. */
  lemma NothingSkipped(run: seq<Step>, port: bool, k: nat)
    requires k < |AfterRun(run, port).ledger.rows|
    ensures var sys := AfterRun(run, port); var row := sys.ledger.rows[k];
            && (row.id in sys.ledger.published ==>
                  HandedSince(sys.ops, 0, row)
                  && row.eventType in {"workflow.queued", "webhook.accepted", "approval.resume_requested"})
            && (row.id in sys.ledger.dead ==> !Known(row) && port)
            && (row.id <= sys.ledger.cursor && (Known(row) || port) ==> row.id in Handled(sys.ledger))
            && (row.id <= sys.ledger.cursor && Known(row) ==> row.id in sys.ledger.published)
  {
    AlwaysInv(run, port);
    var sys := AfterRun(run, port);
    var o := sys.ledger;
    var id := o.rows[k].id;
    JobIsOfRow(o.rows[k]);
    assert id in o.published ==> PublishedOk(o, sys.ops, id);
    assert id in o.dead ==> DeadOk(o, id);
    assert forall j | 0 <= j < |o.rows| && o.rows[j].id == id :: j == k;
  }

  /** A row whose payload is too large holds up the ledger for ever: no row from it on is ever handled. */
  lemma RefusedRowBlocks(run: seq<Step>, port: bool, k: nat, later: nat)
    requires k <= later < |AfterRun(run, port).ledger.rows|
    requires var row := AfterRun(run, port).ledger.rows[k]; Known(row) && row.bytes > MAX_PAYLOAD_BYTES
    ensures var o := AfterRun(run, port).ledger; o.rows[later].id !in Handled(o)
  {
    hide AfterRun, Handed, Known, PassOk;
    AlwaysInv(run, port);
    NothingSkipped(run, port, k);
    NeverHanded(AfterRun(run, port).ops, AfterRun(run, port).ledger.rows[k]);
    var o := AfterRun(run, port).ledger;
    assert k < later ==> o.rows[k].id < o.rows[later].id;
    assert forall id | id in Handled(o) :: id <= o.cursor;
  }

  lemma NeverHanded(ops: seq<Queue.Op>, row: Row)
    requires Known(row) && row.bytes > MAX_PAYLOAD_BYTES
    ensures !Handed(ops, row)
  {
    JobIsOfRow(row);
  }

  /** Nobody but publishers enqueues under the key. */
  predicate OnlyPublished(run: seq<Step>, key: string) {
    forall n | 0 <= n < |run| :: run[n].Other? && run[n].op.Enqueue? ==> run[n].op.job.key != key
  }

  /** The job is that of the row with the id. */
  predicate FromRow(o: Ledger, id: nat, job: Queue.Job) {
    exists k | 0 <= k < |o.rows| :: o.rows[k].id == id && Becomes(o.rows[k], job)
  }

  ghost predicate JobsFromRow(sys: Sys, row: Row) {
    forall i | 0 <= i < |sys.ops| && sys.ops[i].Enqueue? && sys.ops[i].job.key == UniqueKey(row) ::
      FromRow(sys.ledger, row.id, sys.ops[i].job)
  }

  lemma FromRowStays(o: Ledger, o': Ledger, id: nat, job: Queue.Job)
    requires FromRow(o, id, job) && o.rows <= o'.rows
    ensures FromRow(o', id, job)
  {
    hide Becomes;
    var k :| 0 <= k < |o.rows| && o.rows[k].id == id && Becomes(o.rows[k], job);
    assert o'.rows[k] == o.rows[k];
  }

  lemma PlacedRow(o: Ledger, rest: seq<Row>, row: Row)
    requires Placed(o, rest) && rest != [] && Known(rest[0]) && JobOf(rest[0]).Some?
    ensures JobOf(rest[0]).value.key == UniqueKey(row) ==> FromRow(o, row.id, JobOf(rest[0]).value)
  {
    var i: nat :| IsPieceAt(o, rest, i) && SettledBefore(o, i);
    assert o.rows[i] == rest[0];
    KeysDiffer(rest[0], row);
    JobIsOfRow(rest[0]);
  }

  lemma JobsFromRowStep(sys: Sys, step: Step, row: Row)
    requires Inv(sys) && JobsFromRow(sys, row)
    requires step.Other? && step.op.Enqueue? ==> step.op.job.key != UniqueKey(row)
    ensures JobsFromRow(Next(sys, step), row)
  {
    hide Known, JobOf, FromRow, Placed, UniqueKey, RecordsOk, SettledUpTo, Ascending;
    var sys' := Next(sys, step);
    if step.Do? && step.pass in sys.passes && sys.passes[step.pass].Working? {
      var rest := sys.passes[step.pass].rest;
      assert PassOk(sys.ledger, sys.ops, sys.passes[step.pass]);
      if rest != [] && Known(rest[0]) && JobOf(rest[0]).Some? { PlacedRow(sys.ledger, rest, row); }
    }
    forall i | 0 <= i < |sys'.ops| && sys'.ops[i].Enqueue? && sys'.ops[i].job.key == UniqueKey(row)
      ensures FromRow(sys'.ledger, row.id, sys'.ops[i].job)
    {
      if i < |sys.ops| {
        assert sys'.ops[i] == sys.ops[i];
        FromRowStays(sys.ledger, sys'.ledger, row.id, sys.ops[i].job);
      }
    }
  }

  lemma {:induction false} AlwaysFromRow(run: seq<Step>, port: bool, row: Row)
    requires OnlyPublished(run, UniqueKey(row))
    ensures JobsFromRow(AfterRun(run, port), row)
  {
    hide JobsFromRow, Next, UniqueKey, Inv;
    if run == [] {
      assert JobsFromRow(Start(port), row) by { NoJobs(port, row); }
    } else {
      var before := run[..|run| - 1];
      assert forall n | 0 <= n < |before| :: before[n] == run[n];
      AlwaysFromRow(before, port, row);
      AlwaysInv(before, port);
      JobsFromRowStep(AfterRun(before, port), run[|run| - 1], row);
    }
  }

  lemma NoJobs(port: bool, row: Row)
    ensures JobsFromRow(Start(port), row)
  {
  }

  /**
   * At most one job of a row is live, in one place, over every history of the queue; and
   * where only publishers use its key, the live job is the row's own.
   */
  lemma OneLiveJob(run: seq<Step>, port: bool, k: nat)
    requires k < |AfterRun(run, port).ledger.rows|
    ensures var sys := AfterRun(run, port); var row := sys.ledger.rows[k]; var key := UniqueKey(row);
            var t, s := Queue.Total(sys.ops, key), Queue.After(sys.ops);
            && t.accepted <= t.completed + t.removed + t.buried + 1
            && !(key in s.pending && key in s.active)
            && (OnlyPublished(run, key) && Queue.Live(s, key) ==>
                  && (key in s.pending ==> Becomes(row, s.pending[key].job))
                  && (key in s.active ==> Becomes(row, s.active[key].job)))
  {
    hide Known, JobOf, UniqueKey, AfterRun, RecordsOk, PassOk, SettledUpTo;
    var sys := AfterRun(run, port);
    var row, s := sys.ledger.rows[k], Queue.After(sys.ops);
    var key := UniqueKey(row);
    Queue.Conservation(sys.ops, key);
    if OnlyPublished(run, key) && Queue.Live(s, key) {
      AlwaysInv(run, port);
      AlwaysFromRow(run, port, row);
      Queue.JobsWereEnqueued(sys.ops, key);
      if key in s.pending { OwnJob(sys, row, k, s.pending[key].job); }
      if key in s.active { OwnJob(sys, row, k, s.active[key].job); }
    }
  }

  lemma OwnJob(sys: Sys, row: Row, k: nat, job: Queue.Job)
    requires Ascending(sys.ledger.rows) && JobsFromRow(sys, row) && k < |sys.ledger.rows| && sys.ledger.rows[k] == row
    requires Queue.EnqueuedIn(sys.ops, job) && job.key == UniqueKey(row)
    ensures Becomes(row, job)
  {
    hide Becomes, UniqueKey;
    var o := sys.ledger;
    var i :| 0 <= i < |sys.ops| && sys.ops[i].Enqueue? && sys.ops[i].job == job;
    assert FromRow(o, row.id, job);
    var n :| 0 <= n < |o.rows| && o.rows[n].id == row.id && Becomes(o.rows[n], job);
    assert n == k;
  }

  // ---- A row that is lost ------------------------------------------------

  lemma RunOn(run: seq<Step>, step: Step, port: bool)
    ensures AfterRun(run + [step], port) == Next(AfterRun(run, port), step)
  {
    assert (run + [step])[..|run|] == run;
  }

  lemma TwoListed(a: Row, b: Row, port: bool)
    requires 0 < a.id < b.id
    ensures ListUnpublished(Ledger([a, b], {}, {}, 0, port), 0, 2) == [a, b]
  {
    assert [a, b][1..] == [b] && [b][1..] == [];
    assert RowsAfter([b], 0) == [b];
    assert RowsAfter([a, b], 0) == [a] + [b];
  }

  /**
   * Without the dead-letter port one pass over an unknown row and a known one publishes
   * the known row and leaves the other behind the cursor, handled by nobody.
   */
  lemma UnknownRowLost(a: Row, b: Row) returns (run: seq<Step>)
    requires 0 < a.id < b.id && !Known(a) && Known(b) && JobOf(b).Some?
    ensures var o := AfterRun(run, false).ledger;
            && o.rows == [a, b] && o.published == {b.id} && o.dead == {} && o.cursor == b.id
            && Stranded(o) && !HandledIsPrefix(o)
  {
    hide AfterRun, Known, JobOf, ListUnpublished, HandledIsPrefix, Stranded;
    var r0: seq<Step> := [];
    assert AfterRun(r0, false) == Start(false) by { StartsEmpty(); }
    var r1 := r0 + [Append(a)];
    RunOn(r0, Append(a), false);
    var r2 := r1 + [Append(b)];
    RunOn(r1, Append(b), false);
    assert [] + [a] + [b] == [a, b];
    var r3 := r2 + [Begin(0, 2)];
    RunOn(r2, Begin(0, 2), false);
    TwoListed(a, b, false);
    var r4 := r3 + [Do(0, 0)];
    RunOn(r3, Do(0, 0), false);
    assert AfterRun(r4, false).passes[0] == Working([a, b]);
    var r5 := r4 + [Do(0, 0)];
    RunOn(r4, Do(0, 0), false);
    assert [a, b][1..] == [b];
    assert AfterRun(r5, false).passes[0] == Working([b]);
    var r6 := r5 + [Do(0, 0)];
    RunOn(r5, Do(0, 0), false);
    assert AfterRun(r6, false).passes[0] == Marking([b]);
    run := r6 + [Do(0, 0)];
    RunOn(r6, Do(0, 0), false);
    var o := AfterRun(run, false).ledger;
    assert o == Ledger([a, b], {b.id}, {}, b.id, false);
    assert Stranded(o) by { LostIsStranded(a, b); }
    PrefixIffNoneStranded(run, false);
  }

  lemma StartsEmpty()
    ensures AfterRun([], false) == Start(false)
  {
  }

  lemma LostIsStranded(a: Row, b: Row)
    requires a.id < b.id && !Known(a)
    ensures Stranded(Ledger([a, b], {b.id}, {}, b.id, false))
  {
    hide Known;
    assert [a, b][0] == a;
  }

  // ---- The publisher -----------------------------------------------------

  lemma {:induction false} FreshPass(passes: set<nat>) returns (pass: nat)
    ensures forall p | p in passes :: p < pass
  {
    pass := 0;
    if passes != {} {
      var one :| one in passes;
      var rest := FreshPass(passes - {one});
      pass := Max(rest, one + 1);
      assert forall p | p in passes && p != one :: p in passes - {one};
    }
  }

  class OutboxStore {
    const port: bool
    var rows: seq<Row>
    var published: set<nat>
    var dead: set<nat>
    var cursor: nat

    function Now(): Ledger
      reads this
    {
      Ledger(rows, published, dead, cursor, port)
    }

    constructor (port: bool)
      ensures Now() == Start(port).ledger && this.port == port
    {
      this.port, rows, published, dead, cursor := port, [], {}, {}, 0;
    }

    /** The next rows after an id, up to a limit. */
    method List(after: nat, limit: nat) returns (listed: seq<Row>)
      ensures listed == ListUnpublished(Now(), after, limit)
    {
      var all: seq<Row> := [];
      for i := 0 to |rows|
        invariant all == RowsAfter(rows[..i], after)
      {
        RowsAfterSnoc(rows[..i], rows[i], after);
        assert rows[..i + 1] == rows[..i] + [rows[i]];
        if rows[i].id > after { all := all + [rows[i]]; }
      }
      assert rows[..|rows|] == rows;
      listed := if limit < |all| then all[..limit] else all;
    }

    method MarkPublished(id: nat)
      modifies this
      ensures Now() == Marked(old(Now()), id)
    {
      published := published + {id};
      if id > cursor { cursor := id; }
    }

    method DeadLetter(id: nat)
      modifies this
      ensures Now() == Buried(old(Now()), id)
    {
      dead := dead + {id};
      if id > cursor { cursor := id; }
    }
  }

  datatype Mapping = Mapping(eventType: string, jobType: string, queue: string)

  const DEFAULT_MAPPINGS := [
    Mapping("workflow.queued", "workflow.execute", "workflow-execution"),
    Mapping("webhook.accepted", "webhook.process", "webhook-processing"),
    Mapping("approval.resume_requested", "approval.resume", "approval-resume")]

  /** The mapping of an event type. */
  method FindMapping(eventType: string) returns (m: Option<Mapping>)
    ensures m.Some? <==> MappingOf(eventType).Some?
    ensures m.Some? ==> MappingOf(eventType) == Some((m.value.jobType, m.value.queue))
  {
    for i := 0 to |DEFAULT_MAPPINGS|
      invariant forall j | 0 <= j < i :: DEFAULT_MAPPINGS[j].eventType != eventType
    {
      if DEFAULT_MAPPINGS[i].eventType == eventType { return Some(DEFAULT_MAPPINGS[i]); }
    }
    assert DEFAULT_MAPPINGS[0].eventType != eventType && DEFAULT_MAPPINGS[1].eventType != eventType
           && DEFAULT_MAPPINGS[2].eventType != eventType;
    return None;
  }

  /** buildEnvelope for a row; nothing when its payload is too large. */
  method BuildEnvelope(row: Row, m: Mapping) returns (job: Option<Queue.Job>)
    requires MappingOf(row.eventType) == Some((m.jobType, m.queue))
    ensures job == JobOf(row)
  {
    if row.bytes > MAX_PAYLOAD_BYTES { return None; }
    var runId := "";
    if "runId" in row.correlation {
      runId := row.correlation["runId"];
    } else if "runId" in row.payload {
      runId := row.payload["runId"];
    } else if "workflowRunId" in row.correlation {
      runId := row.correlation["workflowRunId"];
    }
    return Some(Queue.Job("outbox:" + Digits(row.id), m.queue, m.jobType, 1, runId, 0));
  }

  /** The envelope of the row cannot be built. */
  predicate Refused(row: Row) { Known(row) && JobOf(row).None? }

  /** Nothing up to that row is refused. */
  predicate ReachedRow(rows: seq<Row>, i: nat)
    requires i < |rows|
  {
    forall j | 0 <= j <= i :: !Refused(rows[j])
  }

  class OutboxPublisher {
    const outbox: OutboxStore
    const queue: Queue.InMemoryTransport

    constructor (outbox: OutboxStore, queue: Queue.InMemoryTransport)
      ensures this.outbox == outbox && this.queue == queue
    {
      this.outbox, this.queue := outbox, queue;
    }

    /** Ledger and queue are where the run has left them. */
    ghost predicate At(run: seq<Step>)
      reads outbox, queue
    {
      && queue.Valid() && outbox.Now() == AfterRun(run, outbox.port).ledger
      && queue.log == AfterRun(run, outbox.port).ops
    }

    /** Hands over one row; refused tells that its envelope could not be built. */
    method PublishRow(row: Row, now: int, ghost run: seq<Step>, ghost pass: nat, ghost rest: seq<Row>)
      returns (refused: bool, ghost run': seq<Step>)
      requires At(run) && pass in AfterRun(run, outbox.port).passes
      requires AfterRun(run, outbox.port).passes[pass] == Working([row] + rest)
      modifies outbox, queue
      ensures At(run') && run <= run'
      ensures refused <==> Refused(row)
      ensures !refused ==> Settled(outbox.Now(), row)
      ensures AfterRun(run', outbox.port).passes ==
              if refused then AfterRun(run, outbox.port).passes - {pass}
              else AfterRun(run, outbox.port).passes[pass := Working(rest)]
      ensures outbox.rows == old(outbox.rows) && Handled(old(outbox.Now())) <= Handled(outbox.Now())
      ensures var typed := row.eventType in {"workflow.queued", "webhook.accepted", "approval.resume_requested"};
              && (refused <==> typed && row.bytes > 32768)
              && (typed && !refused ==>
                    && |queue.log| == |old(queue.log)| + 1 && old(queue.log) <= queue.log
                    && queue.log[|old(queue.log)|].Enqueue? && queue.log[|old(queue.log)|].availableAt == now
                    && Becomes(row, queue.log[|old(queue.log)|].job)
                    && outbox.published == old(outbox.published) + {row.id} && outbox.dead == old(outbox.dead))
              && (!typed || refused ==> queue.log == old(queue.log) && outbox.published == old(outbox.published))
              && (refused ==> outbox.dead == old(outbox.dead))
              && (!typed ==> outbox.dead == old(outbox.dead) + if outbox.port then {row.id} else {})
      ensures !refused ==> HandledAs(outbox.Now(), queue.log, |old(queue.log)|, row)
    {
      hide AfterRun, MappingOf, JobOf, Becomes, Queue.After, Queue.Apply;
      JobIsOfRow(row);
      ghost var port := outbox.port;
      assert ([row] + rest)[0] == row && ([row] + rest)[1..] == rest;
      run' := run + [Do(pass, now)];
      RunOn(run, Do(pass, now), port);
      refused := false;
      var mapping := FindMapping(row.eventType);
      if mapping.None? {
        if outbox.port { outbox.DeadLetter(row.id); }
      } else {
        var job := BuildEnvelope(row, mapping.value);
        if job.None? { refused := true; return; }
        var _ := queue.Enqueue(job.value, 0, now);
        outbox.MarkPublished(row.id);
        RunOn(run', Do(pass, now), port);
        run' := run' + [Do(pass, now)];
      }
    }

    /**
     * One pass; nothing is returned when an envelope is refused, which ends the pass after
     * the rows before it have been settled.
     */
    method PublishOnce(limit: nat, now: nat -> int, ghost run: seq<Step>)
      returns (published: Option<nat>, ghost run': seq<Step>)
      requires At(run)
      modifies outbox, queue
      ensures At(run') && run <= run'
      ensures AfterRun(run', outbox.port).passes == AfterRun(run, outbox.port).passes
      ensures var listed := ListUnpublished(old(outbox.Now()), old(outbox.cursor), limit);
              && (published.None? <==> exists i | 0 <= i < |listed| :: Refused(listed[i]))
              && (published.Some? ==> published.value == |listed|)
              && (forall i | 0 <= i < |listed| && ReachedRow(listed, i) :: Settled(outbox.Now(), listed[i]))
              && (forall i | 0 <= i < |listed| && ReachedRow(listed, i) ::
                    HandledAs(outbox.Now(), queue.log, |old(queue.log)|, listed[i]))
    {
      hide AfterRun, JobOf, Known, Settled, Refused, Becomes, HandledAs, HandedSince, ListUnpublished, Queue.After, Queue.Apply;
      ghost var port, passes := outbox.port, AfterRun(run, outbox.port).passes;
      ghost var pass := FreshPass(passes.Keys);
      run' := ListingRun(run, pass, limit, port);
      var rows := outbox.List(outbox.cursor, limit);
      var count: nat := 0;
      while count < |rows|
        invariant count <= |rows| && At(run') && run <= run' && outbox.rows == old(outbox.rows)
        invariant AfterRun(run', port).passes == passes[pass := Working(rows[count..])]
        invariant forall i | 0 <= i < count :: Settled(outbox.Now(), rows[i])
        invariant forall i | 0 <= i < count :: !Refused(rows[i])
        invariant old(queue.log) <= queue.log
        invariant forall i | 0 <= i < count :: HandledAs(outbox.Now(), queue.log, |old(queue.log)|, rows[i])
      {
        ghost var log := queue.log;
        assert rows[count..] == [rows[count]] + rows[count + 1..];
        ghost var before := outbox.Now();
        var refused;
        refused, run' := PublishRow(rows[count], now(count), run', pass, rows[count + 1..]);
        SettledAlong(before, outbox.Now(), rows[..count]);
        HandledAlong(before, outbox.Now(), log, queue.log, |old(queue.log)|, rows, count, refused);
        assert forall i | 0 <= i < count :: rows[i] == rows[..count][i];
        if refused {
          assert passes[pass := Working(rows[count..])] - {pass} == passes;
          assert forall i | count <= i < |rows| :: !ReachedRow(rows, i);
          return None, run';
        }
        count := count + 1;
      }
      RunOn(run', Do(pass, 0), port);
      assert passes[pass := Working(rows[count..])] - {pass} == passes;
      run' := run' + [Do(pass, 0)];
      published := Some(count);
    }
  }

  /** A row of one of the three types was handed over and marked; any other was dead-lettered if possible. */
  predicate HandledAs(o: Ledger, ops: seq<Queue.Op>, from: nat, row: Row) {
    if row.eventType in {"workflow.queued", "webhook.accepted", "approval.resume_requested"}
    then row.id in o.published && HandedSince(ops, from, row)
    else o.port ==> row.id in o.dead
  }

  lemma HandledAlong(o: Ledger, o': Ledger, ops: seq<Queue.Op>, ops': seq<Queue.Op>, from: nat, rows: seq<Row>, n: nat,
                     refused: bool)
    requires n < |rows| && o'.port == o.port && o.published <= o'.published && o.dead <= o'.dead && from <= |ops| && ops <= ops'
    requires forall i | 0 <= i < n :: HandledAs(o, ops, from, rows[i])
    requires !refused ==> HandledAs(o', ops', |ops|, rows[n])
    ensures forall i | 0 <= i < n :: HandledAs(o', ops', from, rows[i])
    ensures !refused ==> HandledAs(o', ops', from, rows[n])
  {
    hide Becomes;
    forall i | 0 <= i < n ensures HandledAs(o', ops', from, rows[i]) { HandedLater(ops, ops', from, rows[i]); }
    if !refused && HandedSince(ops', |ops|, rows[n]) {
      var i :| |ops| <= i < |ops'| && ops'[i].Enqueue? && Becomes(rows[n], ops'[i].job);
    }
  }

  lemma HandedLater(ops: seq<Queue.Op>, ops': seq<Queue.Op>, from: nat, row: Row)
    requires ops <= ops'
    ensures HandedSince(ops, from, row) ==> HandedSince(ops', from, row)
  {
    hide Becomes;
    if HandedSince(ops, from, row) {
      var i :| from <= i < |ops| && ops[i].Enqueue? && Becomes(row, ops[i].job);
      assert ops'[i] == ops[i];
    }
  }

  lemma SettledAlong(o: Ledger, o': Ledger, rows: seq<Row>)
    requires o'.port == o.port && Handled(o) <= Handled(o')
    requires forall i | 0 <= i < |rows| :: Settled(o, rows[i])
    ensures forall i | 0 <= i < |rows| :: Settled(o', rows[i])
  {
  }

  lemma ListingRun(run: seq<Step>, pass: nat, limit: nat, port: bool) returns (run': seq<Step>)
    requires pass !in AfterRun(run, port).passes
    ensures var sys := AfterRun(run, port);
            run <= run' && AfterRun(run', port) ==
            sys.(passes := sys.passes[pass := Working(ListUnpublished(sys.ledger, sys.ledger.cursor, limit))])
  {
    hide AfterRun;
    run' := run + [Begin(pass, limit)];
    RunOn(run, Begin(pass, limit), port);
    RunOn(run', Do(pass, 0), port);
    run' := run' + [Do(pass, 0)];
  }
}
