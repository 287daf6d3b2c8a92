/**
 The message handlers of `src/transactions/`, as methods of one handler among any number of
 others.  Every method is proved to produce its own steps, in order, woven into a run of the
 `Ledger` protocol.
 */
module LedgerServices {
  import opened Runs
  import opened Ledger
  import LedgerRecords

  datatype Result = Success | Unparsed | FailedAt(step: nat) // `JSON.parse` threw, or an await, counted from 0

  function Actor(e: Event): int { e.h }

  /** The database and the handlers suspended on it. */
  class Store {
    var table: seq<Row>
    var handlers: map<HandlerId, Handler>
    ghost var trace: seq<Event>

    function Now(): State
      reads this
    {
      State(table, handlers)
    }

    ghost predicate Valid()
      reads this
    {
      IsRun(AGENCY, trace) && After(AGENCY, trace) == Now()
    }

    constructor ()
      ensures Valid() && trace == []
    {
      table, handlers, trace := [], map[], [];
    }

    /** One step of another handler, if it can be taken now. */
    method Step(h: HandlerId, e: Event)
      requires Valid()
      modifies this
      ensures Valid() && trace == if e.h != h && Enabled(old(Now()), e) then old(trace) + [e] else old(trace)
      ensures Kept(old(handlers), handlers, h)
    {
      if e.h != h && Enabled(Now(), e) {
        AlwaysWellformed(trace);
        StepShape(Now(), e);
        Extend(AGENCY, trace, e);
        var s := Next(Now(), e);
        table, handlers := s.table, s.handlers;
        trace := trace + [e];
      }
    }

    /** The events of `gap` that other handlers can take while `h` waits. */
    method Others(h: HandlerId, gap: seq<Event>)
      requires Valid()
      modifies this
      ensures Valid() && trace == Admit(AGENCY, Actor, h, old(trace), gap) && old(trace) <= trace
      ensures Kept(old(handlers), handlers, h)
    {
      for i := 0 to |gap|
        invariant Valid() && trace == Admit(AGENCY, Actor, h, old(trace), gap[..i]) && old(trace) <= trace
        invariant Kept(old(handlers), handlers, h)
      {
        AdmitStep(AGENCY, Actor, h, old(trace), gap, i);
        Step(h, gap[i]);
      }
      assert gap[..|gap|] == gap;
    }

    method Enter(h: HandlerId, agentId: string, content: Content)
      requires Valid() && h !in handlers
      modifies this
      ensures Valid() && trace == old(trace) + [Receive(h, agentId, content)]
      ensures table == old(table) && handlers == old(handlers)[h := Handler(agentId, content, FirstStage(content))]
    {
      Extend(AGENCY, trace, Receive(h, agentId, content));
      trace := trace + [Receive(h, agentId, content)];
      handlers := handlers[h := Handler(agentId, content, FirstStage(content))];
    }

    /** Handler `h` enters `stage`, having saved `rows`. */
    method Commit(h: HandlerId, e: Event, stage: Stage, rows: seq<Row>)
      requires Valid() && h in handlers && e.h == h && Enabled(Now(), e)
      requires Next(Now(), e) == State(table + rows, handlers[h := handlers[h].(stage := stage)])
      modifies this
      ensures Valid() && trace == old(trace) + [e]
      ensures table == old(table) + rows && handlers == old(handlers)[h := old(handlers)[h].(stage := stage)]
    {
      Extend(AGENCY, trace, e);
      trace := trace + [e];
      table := table + rows;
      handlers := handlers[h := handlers[h].(stage := stage)];
    }
  }

  ghost predicate Restaged(before: map<HandlerId, Handler>, after: map<HandlerId, Handler>, h: HandlerId) {
    h in before && h in after && SameMessage(before[h], after[h])
  }

  ghost predicate Kept(before: map<HandlerId, Handler>, after: map<HandlerId, Handler>, h: HandlerId) {
    (h in before <==> h in after) && (h in before ==> before[h] == after[h])
  }

  /** `src/transactions/persistence/data.service.ts` */
  class DataService {
    const connection: Store

    constructor (connection: Store)
      ensures this.connection == connection
    {
      this.connection := connection;
    }

    /** `SELECT MAX(merkel_order)`: null when there are no rows. */
    method GetMaxMerkelOrder() returns (max: Option<nat>)
      ensures max.Some? <==> connection.table != []
      ensures max.Some? ==> max.value == MaxOrder(connection.table)
    {
      max := None;
      var table := connection.table;
      for i := 0 to |table|
        invariant max.Some? <==> i > 0
        invariant i > 0 ==> max.value == MaxOrder(table[..i])
      {
        assert table[..i + 1][..i] == table[..i];
        var o := table[i].record.merkelOrder;
        if max.None? || max.value < o {
          max := Some(o);
        }
      }
      assert table[..|table|] == table;
    }

    /** `find({agent_id})`: the database may return the agent's rows in any order, `order` being the one it picks. */
    method GetAllTransactions(agentId: string, order: seq<Record>) returns (rows: seq<Record>)
      ensures multiset(rows) == multiset(RecordsOf(connection.table, agentId))
      ensures multiset(order) == multiset(rows) ==> rows == order
    {
      rows := [];
      var table := connection.table;
      for i := 0 to |table|
        invariant rows == RecordsOf(table[..i], agentId)
      {
        assert table[..i + 1][..i] == table[..i];
        var record := table[i].record;
        rows := rows + if record.agentId == agentId then [record] else [];
      }
      assert table[..|table|] == table;
      if multiset(order) == multiset(rows) {
        rows := order;
      }
    }
  }

  /** A row of `agent_transactions` while it is being filled in. */
  class AgentTransaction {
    var agentId: string
    var transactionId: string
    var eventDate: string
    var issuerHash: string
    var fspId: string
    var merkelOrder: nat
    var merkelHash: Digest
    var credentialId: string
    var transactionDate: string
    var typeId: string
    var subjectId: string
    var amount: string
    var transactionDetails: string

    constructor () {}

    function Saved(): Record
      reads this
    {
      Record(agentId, transactionId, eventDate, issuerHash, fspId, merkelOrder, merkelHash, credentialId,
             transactionDate, typeId, subjectId, amount, transactionDetails)
    }
  }

  lemma ReadIs(s: State, h: HandlerId)
    requires Enabled(s, ReadMax(h)) && s.handlers[h].content.Parsed?
    ensures var stage := if s.handlers[h].content.message.transaction.Some? then Pending(MaxOrder(s.table) + 1) else Stopped;
            Next(s, ReadMax(h)) == State(s.table + [], s.handlers[h := s.handlers[h].(stage := stage)])
  {
    assert s.table + [] == s.table;
  }

  /** The event of a step that may also fail without having been carried out. */
  function Try(reply: Reply, h: HandlerId, e: Event): Event {
    if reply.NotDone? then Fail(h) else e
  }

  /** The order one past the maximum that handler `h` reads after `t`. */
  ghost function NextOrder(t: seq<Event>, h: HandlerId, gap: seq<Event>): nat {
    MaxOrder(After(AGENCY, Admit(AGENCY, Actor, h, t, gap)).table) + 1
  }

  /** Handler `h` has acknowledged its transaction, and the row it saved is in the table with this order. */
  ghost predicate Recorded(s: State, h: HandlerId, agentId: string, m: Message, order: nat) {
    && h in s.handlers && s.handlers[h].stage.Acked?
    && var r := s.handlers[h].stage.record;
       Row(h, r) in s.table && r.agentId == agentId && r.transactionId == m.id && r.merkelOrder == order
  }

  lemma AckedIsRecorded(es: seq<Event>, h: HandlerId)
    requires IsRun(AGENCY, es) && h in After(AGENCY, es).handlers && After(AGENCY, es).handlers[h].stage.Acked?
    ensures Row(h, After(AGENCY, es).handlers[h].stage.record) in After(AGENCY, es).table
  {
    LedgerRecords.AlwaysSound(es);
    assert LedgerRecords.Stored(After(AGENCY, es), h);
  }

  /** The steps of a started transaction after `t`: read, save and acknowledge, up to the await that threw. */
  ghost function CreditTrace(t: seq<Event>, h: HandlerId, gaps: seq<seq<Event>>, replies: seq<Reply>, r: Result): seq<Event>
    requires |gaps| == |replies| == 3
  {
    var read := Act(AGENCY, Actor, h, t, gaps[0], if replies[0].Answered? then ReadMax(h) else Fail(h));
    var saved := Act(AGENCY, Actor, h, read, gaps[1], Try(replies[1], h, Save(h, replies[1].Lost?)));
    var acked := Act(AGENCY, Actor, h, saved, gaps[2], Try(replies[2], h, Ack(h)));
    if r == FailedAt(0) then read else if r == FailedAt(1) then saved else acked
  }

  /** The steps of a started report request after `t`: accept, collect and complete, up to the await that threw. */
  ghost function ReportTrace(
    t: seq<Event>, h: HandlerId, gaps: seq<seq<Event>>, replies: seq<Reply>, rows: seq<Record>, r: Result): seq<Event>
    requires |gaps| == |replies| == 3
  {
    var accepted := Act(AGENCY, Actor, h, t, gaps[0], Try(replies[0], h, Accept(h, replies[0].Lost?)));
    var collected := Act(AGENCY, Actor, h, accepted, gaps[1], if replies[1].Answered? then Collect(h, rows) else Fail(h));
    var completed := Act(AGENCY, Actor, h, collected, gaps[2], Try(replies[2], h, Complete(h)));
    if r == FailedAt(0) then accepted else if r == FailedAt(1) then collected else completed
  }

  /** `src/transactions/messaging/transaction.message.handler.ts`, its `respond` to a started transaction. */
  class TransactionMessageHandler {
    const agentId: string
    const store: Store

    constructor (agentId: string, store: Store)
      ensures this.agentId == agentId && this.store == store
    {
      this.agentId := agentId;
      this.store := store;
    }

    method FillRecord(m: Message, max: Option<nat>) returns (r: Record)
      requires m.transaction.Some?
      ensures r == NewRecord(agentId, m, (if max.Some? then max.value else 0) + 1)
    {
      var t := m.transaction.value;
      var record := new AgentTransaction();
      record.agentId := agentId;
      record.transactionId := m.id;
      record.eventDate := t.eventDate;
      record.issuerHash := t.fspHash;
      record.fspId := t.fspId;
      record.merkelOrder := (if max.Some? then max.value else 0) + 1; // null + 1 is 1
      record.merkelHash := Hash32(t.fspHash);
      FillRest(record, m);
      r := record.Saved();
    }

    /** The fields that do not take part in the order of the ledger. */
    method FillRest(record: AgentTransaction, m: Message)
      requires m.transaction.Some?
      modifies record
      ensures var t := m.transaction.value;
              record.Saved() == old(record.Saved()).(
                credentialId := m.credentialId, transactionDate := t.date, typeId := t.typeId,
                subjectId := t.subjectId, amount := t.amount, transactionDetails := t.eventJson)
    {
      var t := m.transaction.value;
      record.credentialId := m.credentialId;
      record.transactionDate := t.date;
      record.typeId := t.typeId;
      record.subjectId := t.subjectId;
      record.amount := t.amount;
      record.transactionDetails := t.eventJson;
    }

    /** The wait for the maximum, and the fields that are read right after it. */
    method ReadAndFill(h: HandlerId, m: Message, gap: seq<Event>, reply: Reply) returns (ok: bool, record: Record)
      requires store.Valid() && h in store.handlers && store.handlers[h] == Handler(agentId, Parsed(m), Reading)
      modifies store
      ensures store.Valid() && old(store.trace) <= store.trace && Restaged(old(store.handlers), store.handlers, h)
      ensures store.trace
           == Act(AGENCY, Actor, h, old(store.trace), gap, if reply.Answered? then ReadMax(h) else Fail(h))
      ensures ok <==> reply.Answered? && m.transaction.Some?
      ensures ok ==> record == NewRecord(agentId, m, NextOrder(old(store.trace), h, gap))
      ensures ok ==> store.handlers[h] == Handler(agentId, Parsed(m), Pending(record.merkelOrder))
    {
      store.Others(h, gap);
      if reply.Answered? {
        ok, record := Read(h, m);
      } else {
        ok, record := false, *;
        store.Commit(h, Fail(h), Stopped, []);
      }
    }

    /** A message without a transaction throws when its fields are read. */
    method Read(h: HandlerId, m: Message) returns (ok: bool, record: Record)
      requires store.Valid() && h in store.handlers && store.handlers[h] == Handler(agentId, Parsed(m), Reading)
      modifies store
      ensures store.Valid() && store.trace == old(store.trace) + [ReadMax(h)]
      ensures Restaged(old(store.handlers), store.handlers, h)
      ensures ok <==> m.transaction.Some?
      ensures ok ==> record == NewRecord(agentId, m, MaxOrder(old(store.table)) + 1)
      ensures ok ==> store.handlers[h] == Handler(agentId, Parsed(m), Pending(record.merkelOrder))
    {
      ReadIs(store.Now(), h);
      ok := m.transaction.Some?;
      if ok {
        record := NextRecord(m);
        store.Commit(h, ReadMax(h), Pending(record.merkelOrder), []);
      } else {
        record := *;
        store.Commit(h, ReadMax(h), Stopped, []);
      }
    }

    method NextRecord(m: Message) returns (r: Record)
      requires m.transaction.Some?
      ensures r == NewRecord(agentId, m, MaxOrder(store.table) + 1)
    {
      var data := new DataService(store);
      var max := data.GetMaxMerkelOrder();
      r := FillRecord(m, max);
    }

    /** `saveTransaction`: the column refuses an order it cannot hold. */
    method Save(h: HandlerId, m: Message, record: Record, gap: seq<Event>, reply: Reply) returns (ok: bool)
      requires store.Valid() && h in store.handlers && m.transaction.Some?
      requires store.handlers[h] == Handler(agentId, Parsed(m), Pending(record.merkelOrder))
      requires record == NewRecord(agentId, m, record.merkelOrder)
      modifies store
      ensures store.Valid() && old(store.trace) <= store.trace && Restaged(old(store.handlers), store.handlers, h)
      ensures store.trace == Act(AGENCY, Actor, h, old(store.trace), gap, Try(reply, h, Event.Save(h, reply.Lost?)))
      ensures ok <==> reply.Answered? && record.merkelOrder <= MAX_INT
      ensures ok ==> store.handlers[h] == Handler(agentId, Parsed(m), Saved(record))
      ensures !reply.NotDone? && record.merkelOrder <= MAX_INT ==> EndsWith(store.table, Row(h, record))
    {
      store.Others(h, gap);
      ok := reply.Answered? && record.merkelOrder <= MAX_INT;
      if reply.NotDone? {
        store.Commit(h, Fail(h), Stopped, []);
      } else {
        var rows := if record.merkelOrder <= MAX_INT then [Row(h, record)] else [];
        store.Commit(h, Event.Save(h, reply.Lost?), if ok then Saved(record) else Stopped, rows);
      }
    }

    /** `sendTransactionMessage` with state `accepted`. */
    method Acknowledge(h: HandlerId, record: Record, gap: seq<Event>, reply: Reply)
      requires store.Valid() && h in store.handlers && store.handlers[h].stage == Saved(record)
      modifies store
      ensures store.Valid() && old(store.trace) <= store.trace && Restaged(old(store.handlers), store.handlers, h)
      ensures store.trace == Act(AGENCY, Actor, h, old(store.trace), gap, Try(reply, h, Ack(h)))
      ensures store.handlers[h].stage == if reply.NotDone? then Stopped else Acked(record)
    {
      store.Others(h, gap);
      if reply.NotDone? {
        store.Commit(h, Fail(h), Stopped, []);
      } else {
        store.Commit(h, Ack(h), Acked(record), []);
      }
    }

    method Respond(h: HandlerId, m: Message, gaps: seq<seq<Event>>, replies: seq<Reply>) returns (r: Result)
      requires store.Valid() && h in store.handlers && |gaps| == |replies| == 3
      requires store.handlers[h] == Handler(agentId, Parsed(m), Reading)
      modifies store
      ensures store.Valid() && old(store.trace) <= store.trace && Restaged(old(store.handlers), store.handlers, h)
      ensures store.trace == CreditTrace(old(store.trace), h, gaps, replies, r)
      ensures r == FailedAt(0) <==> !replies[0].Answered? || m.transaction.None?
      ensures var full := NextOrder(old(store.trace), h, gaps[0]) > 2147483647;
              r == FailedAt(1) <==> r != FailedAt(0) && (!replies[1].Answered? || full)
      ensures r == FailedAt(2) <==> r != FailedAt(0) && r != FailedAt(1) && !replies[2].Answered?
      ensures r.Success? <==> r != FailedAt(0) && r != FailedAt(1) && replies[2].Answered?
      ensures r.Success? ==> Recorded(store.Now(), h, agentId, m, NextOrder(old(store.trace), h, gaps[0]))
      ensures r.Success? ==> EndsWith(store.trace, Ack(h))
    {
      var ok, record := ReadAndFill(h, m, gaps[0], replies[0]);
      if !ok {
        return FailedAt(0);
      }
      ok := Save(h, m, record, gaps[1], replies[1]);
      if !ok {
        return FailedAt(1);
      }
      Acknowledge(h, record, gaps[2], replies[2]);
      r := if replies[2].Answered? then Success else FailedAt(2);
      if r.Success? {
        AckedIsRecorded(store.trace, h);
      }
    }
  }

  /** `src/transactions/messaging/report.message.handler.ts`, its `respond` to a started request. */
  class ReportMessageHandler {
    const agentId: string
    const store: Store

    constructor (agentId: string, store: Store)
      ensures this.agentId == agentId && this.store == store
    {
      this.agentId := agentId;
      this.store := store;
    }

    method BuildReport(transactions: seq<Record>) returns (reportRecs: seq<ReportRow>)
      ensures reportRecs == ProjectAll(transactions)
    {
      reportRecs := [];
      for i := 0 to |transactions|
        invariant reportRecs == ProjectAll(transactions[..i])
      {
        var record := transactions[i];
        assert transactions[..i + 1] == transactions[..i] + [record];
        reportRecs := reportRecs + [ReportRow(
          record.merkelOrder, record.transactionId, record.typeId, record.subjectId, record.transactionDate,
          record.amount, record.credentialId, record.issuerHash, record.transactionDetails)];
      }
      assert transactions[..|transactions|] == transactions;
    }

    /** `sendTransactionReportMessage` with state `accepted`. */
    method Acknowledge(h: HandlerId, gap: seq<Event>, reply: Reply)
      requires store.Valid() && h in store.handlers && store.handlers[h].stage.Requested?
      modifies store
      ensures store.Valid() && old(store.trace) <= store.trace && Restaged(old(store.handlers), store.handlers, h)
      ensures store.trace == Act(AGENCY, Actor, h, old(store.trace), gap, Try(reply, h, Accept(h, reply.Lost?)))
      ensures store.handlers[h] == old(store.handlers[h]).(stage := if reply.Answered? then Accepted else Stopped)
    {
      store.Others(h, gap);
      store.Commit(h, Try(reply, h, Accept(h, reply.Lost?)), if reply.Answered? then Accepted else Stopped, []);
    }

    /** `order` is the order in which the database returns the agent's rows. */
    method Gather(h: HandlerId, order: seq<Record>, gap: seq<Event>, reply: Reply) returns (transactions: seq<Record>)
      requires store.Valid() && h in store.handlers
      requires store.handlers[h].stage.Accepted? && store.handlers[h].agentId == agentId
      modifies store
      ensures store.Valid() && old(store.trace) <= store.trace && Restaged(old(store.handlers), store.handlers, h)
      ensures store.trace == Act(AGENCY, Actor, h, old(store.trace), gap,
                                 if reply.Answered? then Collect(h, transactions) else Fail(h))
      ensures store.handlers[h].stage == if reply.Answered? then Collected(transactions) else Stopped
    {
      store.Others(h, gap);
      transactions := [];
      if reply.Answered? {
        var data := new DataService(store);
        transactions := data.GetAllTransactions(agentId, order);
        store.Commit(h, Collect(h, transactions), Collected(transactions), []);
      } else {
        store.Commit(h, Fail(h), Stopped, []);
      }
    }

    /** `sendTransactionReportMessage` with state `completed`. */
    method SendReport(h: HandlerId, rows: seq<Record>, report: seq<ReportRow>, gap: seq<Event>, reply: Reply)
      requires store.Valid() && h in store.handlers
      requires store.handlers[h].stage == Collected(rows) && report == ProjectAll(rows)
      modifies store
      ensures store.Valid() && old(store.trace) <= store.trace && Restaged(old(store.handlers), store.handlers, h)
      ensures store.trace == Act(AGENCY, Actor, h, old(store.trace), gap, Try(reply, h, Complete(h)))
      ensures store.handlers[h].stage == if reply.NotDone? then Stopped else Completed(rows, report)
    {
      store.Others(h, gap);
      store.Commit(h, Try(reply, h, Complete(h)), if reply.NotDone? then Stopped else Completed(rows, report), []);
    }

    method Respond(h: HandlerId, order: seq<Record>, gaps: seq<seq<Event>>, replies: seq<Reply>)
      returns (r: Result, ghost rows: seq<Record>)
      requires store.Valid() && h in store.handlers && |gaps| == |replies| == 3
      requires store.handlers[h].stage.Requested? && store.handlers[h].agentId == agentId
      modifies store
      ensures store.Valid() && old(store.trace) <= store.trace && Restaged(old(store.handlers), store.handlers, h)
      ensures store.trace == ReportTrace(old(store.trace), h, gaps, replies, rows, r)
      ensures r == FailedAt(0) <==> !replies[0].Answered?
      ensures r == FailedAt(1) <==> replies[0].Answered? && !replies[1].Answered?
      ensures r == FailedAt(2) <==> replies[0].Answered? && replies[1].Answered? && !replies[2].Answered?
      ensures r.Success? <==> replies[0].Answered? && replies[1].Answered? && replies[2].Answered?
      ensures r.Success? ==> store.handlers[h].stage == Completed(rows, ProjectAll(rows))
    {
      rows := [];
      Acknowledge(h, gaps[0], replies[0]);
      if !replies[0].Answered? {
        return FailedAt(0), rows;
      }
      var transactions := Gather(h, order, gaps[1], replies[1]);
      rows := transactions;
      if !replies[1].Answered? {
        return FailedAt(1), rows;
      }
      var reportRecs := BuildReport(transactions);
      SendReport(h, transactions, reportRecs, gaps[2], replies[2]);
      r := if replies[2].Answered? then Success else FailedAt(2);
    }
  }

  /** `src/transactions/transaction.service.ts` */
  class TransactionService {
    const store: Store

    constructor (store: Store)
      ensures this.store == store
    {
      this.store := store;
    }

    /**
     A notification: parse it, find its handler and await the handler's response.  A started credit
     transaction is recorded and acknowledged and a started report request is answered, unless an
     await throws or the column is full; every other message ends without a step of its own.
     */
    method BasicMessageHandler(
      h: HandlerId, agentId: string, content: Content, order: seq<Record>,
      entry: seq<Event>, gaps: seq<seq<Event>>, replies: seq<Reply>)
      returns (r: Result, ghost rows: seq<Record>)
      requires store.Valid() && h !in store.handlers && |gaps| == |replies| == 3
      modifies store
      ensures store.Valid() && h in store.handlers && SameMessage(store.handlers[h], Handler(agentId, content, Stopped))
      ensures var received := Act(AGENCY, Actor, h, old(store.trace), entry, Receive(h, agentId, content));
              && (content.Malformed? ==> r.Unparsed? && store.trace == received)
              && (content.Parsed? ==> Handled(received, h, agentId, content.message, gaps, replies, r, rows))
    {
      store.Others(h, entry);
      store.Enter(h, agentId, content);
      r, rows := Unparsed, [];
      if content.Parsed? {
        r, rows := Respond(h, agentId, content.message, order, gaps, replies);
      }
    }

    /** What comes of message `m`, received at the end of `t`, by its type and state alone. */
    ghost predicate Handled(
      t: seq<Event>, h: HandlerId, agentId: string, m: Message, gaps: seq<seq<Event>>, replies: seq<Reply>,
      r: Result, rows: seq<Record>)
      requires |gaps| == |replies| == 3
      reads store
    {
      if m.state == "started" && m.messageTypeId == "credit_transaction" then
        && store.trace == CreditTrace(t, h, gaps, replies, r)
        && (m.transaction.None? ==> r == FailedAt(0))
        && (r.Success? <==> m.transaction.Some? && (forall i | 0 <= i < 3 :: replies[i].Answered?)
                            && NextOrder(t, h, gaps[0]) <= 2147483647)
        && (r.Success? ==> Recorded(store.Now(), h, agentId, m, NextOrder(t, h, gaps[0])) && EndsWith(store.trace, Ack(h)))
      else if m.state == "started" && m.messageTypeId == "transaction_request" then
        && store.trace == ReportTrace(t, h, gaps, replies, rows, r)
        && (r.Success? <==> forall i | 0 <= i < 3 :: replies[i].Answered?)
        && (r.Success? ==> h in store.handlers && store.handlers[h].stage == Completed(rows, ProjectAll(rows)))
      else
        r.Success? && store.trace == t
    }

    /** `getMessageHandler` and the handler it returns. */
    method Respond(
      h: HandlerId, agentId: string, m: Message, order: seq<Record>, gaps: seq<seq<Event>>, replies: seq<Reply>)
      returns (r: Result, ghost rows: seq<Record>)
      requires store.Valid() && h in store.handlers && |gaps| == |replies| == 3
      requires store.handlers[h] == Handler(agentId, Parsed(m), FirstStage(Parsed(m)))
      modifies store
      ensures store.Valid() && old(store.trace) <= store.trace && Restaged(old(store.handlers), store.handlers, h)
      ensures Handled(old(store.trace), h, agentId, m, gaps, replies, r, rows)
    {
      rows := [];
      match Dispatch(m)
      case Credit =>
        var handler := new TransactionMessageHandler(agentId, store);
        r := handler.Respond(h, m, gaps, replies);
        AllAnswered(replies);
      case Report =>
        var handler := new ReportMessageHandler(agentId, store);
        r, rows := handler.Respond(h, order, gaps, replies);
        AllAnswered(replies);
      case Ignore =>
        r := Success;
    }

    lemma AllAnswered(replies: seq<Reply>)
      requires |replies| == 3
      ensures (forall i | 0 <= i < 3 :: replies[i].Answered?)
         <==> replies[0].Answered? && replies[1].Answered? && replies[2].Answered?
    {
    }
  }
}
