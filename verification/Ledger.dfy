/**
 The transaction ledger: `src/transactions/messaging/` and `src/transactions/persistence/`.

 Every basic message starts a handler.  A credit transaction reads the largest
 `merkel_order` of the whole table, saves a record with the next one and then answers
 `accepted`; a report request answers `accepted`, reads the agent's records and answers
 `completed` with their projection.  Handlers interleave at every `await`, so two of them
 can read the same maximum; the theorems state what holds nevertheless.
 */
module Ledger {
  import opened Runs

  type HandlerId = nat

  const MAX_INT := 0x7fff_ffff // merkel_order is a 32-bit column

  /** `SecurityUtility.hash32`, kept as an uninterpreted term. */
  datatype Digest = Hash32(of: string)

  datatype Transaction = Transaction(
    eventDate: string, fspHash: string, fspId: string, date: string,
    typeId: string, subjectId: string, amount: string, eventJson: string)

  datatype Message = Message(
    messageTypeId: string, state: string, id: string, credentialId: string, transaction: Option<Transaction>)

  /** What arrives: `JSON.parse` may throw. */
  datatype Content = Malformed | Parsed(message: Message)

  datatype Record = Record(
    agentId: string, transactionId: string, eventDate: string, issuerHash: string, fspId: string,
    merkelOrder: nat, merkelHash: Digest, credentialId: string, transactionDate: string,
    typeId: string, subjectId: string, amount: string, transactionDetails: string)

  /** A row, with the handler that saved it. */
  datatype Row = Row(saver: HandlerId, record: Record)

  datatype ReportRow = ReportRow(
    order: nat, transactionId: string, typeId: string, subjectId: string, txDate: string,
    amount: string, credentialId: string, hash: string, details: string)

  // ---------------------------------------------------------------- what one handler computes

  datatype Handling = Credit | Report | Ignore

  /** `getMessageHandler` and the test of `message.state` at the head of each `respond`. */
  function Dispatch(m: Message): Handling {
    match m.messageTypeId
    case "credit_transaction" => if m.state == "started" then Credit else Ignore
    case "transaction_request" => if m.state == "started" then Report else Ignore
    case _ => Ignore // grants are only logged, other types have no handler
  }

  function NewRecord(agentId: string, m: Message, order: nat): Record
    requires m.transaction.Some?
  {
    var t := m.transaction.value;
    Record(agentId, m.id, t.eventDate, t.fspHash, t.fspId, order, Hash32(t.fspHash), m.credentialId,
           t.date, t.typeId, t.subjectId, t.amount, t.eventJson)
  }

  function Project(r: Record): ReportRow {
    ReportRow(r.merkelOrder, r.transactionId, r.typeId, r.subjectId, r.transactionDate,
              r.amount, r.credentialId, r.issuerHash, r.transactionDetails)
  }

  function ProjectAll(rs: seq<Record>): seq<ReportRow> {
    seq(|rs|, i requires 0 <= i < |rs| => Project(rs[i]))
  }

  /** `SELECT MAX(merkel_order)`, 0 for the empty table: its `null` counts as 0 when 1 is added. */
  function MaxOrder(table: seq<Row>): nat {
    if table == [] then 0
    else
      var m, o := MaxOrder(table[..|table| - 1]), table[|table| - 1].record.merkelOrder;
      if m < o then o else m
  }

  /** `find({agent_id})`, in table order. */
  function RecordsOf(table: seq<Row>, agentId: string): seq<Record> {
    if table == [] then []
    else
      var r := table[|table| - 1].record;
      RecordsOf(table[..|table| - 1], agentId) + if r.agentId == agentId then [r] else []
  }

  // ---------------------------------------------------------------- the protocol

  /** A handler, by the step it is about to take. */
  datatype Stage =
    | Reading                        // credit: before getMaxMerkelOrder
    | Pending(order: nat)            // credit: the maximum is read, the record not yet saved
    | Saved(record: Record)          // credit: before sending `accepted`
    | Acked(record: Record)          // credit: `accepted` is sent
    | Requested                      // report: before sending `accepted`
    | Accepted                       // report: before getAllTransactions
    | Collected(rows: seq<Record>)   // report: before sending `completed`
    | Completed(rows: seq<Record>, report: seq<ReportRow>)
    | Stopped                        // nothing to do, or an exception

  datatype Handler = Handler(agentId: string, content: Content, stage: Stage)

  /** Handlers are kept after they end, so that their messages stay on record. */
  datatype State = State(table: seq<Row>, handlers: map<HandlerId, Handler>)

  datatype Event =
    | Receive(h: HandlerId, agentId: string, content: Content)
    | ReadMax(h: HandlerId)
    | Save(h: HandlerId, lost: bool)
    | Ack(h: HandlerId)
    | Accept(h: HandlerId, lost: bool)
    | Collect(h: HandlerId, rows: seq<Record>) // rows come back in any order: the query has no ORDER BY
    | Complete(h: HandlerId)
    | Fail(h: HandlerId)

  function FirstStage(content: Content): Stage {
    match content
    case Malformed => Stopped
    case Parsed(m) => match Dispatch(m) case Credit => Reading case Report => Requested case Ignore => Stopped
  }

  predicate Enabled(s: State, e: Event) {
    match e
    case Receive(h, _, _) => h !in s.handlers
    case ReadMax(h) => h in s.handlers && s.handlers[h].stage.Reading?
    case Save(h, _) => h in s.handlers && s.handlers[h].stage.Pending?
    case Ack(h) => h in s.handlers && s.handlers[h].stage.Saved?
    case Accept(h, _) => h in s.handlers && s.handlers[h].stage.Requested?
    case Collect(h, rows) =>
      h in s.handlers && s.handlers[h].stage.Accepted?
      && multiset(rows) == multiset(RecordsOf(s.table, s.handlers[h].agentId))
    case Complete(h) => h in s.handlers && s.handlers[h].stage.Collected?
    case Fail(h) => h in s.handlers && !s.handlers[h].stage.Acked? && !s.handlers[h].stage.Completed?
  }

  function Goto(s: State, h: HandlerId, stage: Stage): State
    requires h in s.handlers
  {
    s.(handlers := s.handlers[h := s.handlers[h].(stage := stage)])
  }

  function Next(s: State, e: Event): State {
    if !Enabled(s, e) then s else
    match e
    case Receive(h, agentId, content) =>
      s.(handlers := s.handlers[h := Handler(agentId, content, FirstStage(content))])
    case ReadMax(h) =>
      var content := s.handlers[h].content;
      // a message without a transaction throws as soon as its fields are read
      if content.Parsed? && content.message.transaction.Some? then Goto(s, h, Pending(MaxOrder(s.table) + 1))
      else Goto(s, h, Stopped)
    case Save(h, lost) =>
      var Handler(agentId, content, stage) := s.handlers[h];
      if content.Parsed? && content.message.transaction.Some? && stage.order <= MAX_INT then
        var r := NewRecord(agentId, content.message, stage.order);
        Goto(s, h, if lost then Stopped else Saved(r)).(table := s.table + [Row(h, r)])
      else Goto(s, h, Stopped) // the column cannot hold the order
    case Ack(h) => Goto(s, h, Acked(s.handlers[h].stage.record))
    case Accept(h, lost) => Goto(s, h, if lost then Stopped else Accepted)
    case Collect(h, rows) => Goto(s, h, Collected(rows))
    case Complete(h) => Goto(s, h, Completed(s.handlers[h].stage.rows, ProjectAll(s.handlers[h].stage.rows)))
    case Fail(h) => Goto(s, h, Stopped)
  }

  ghost const AGENCY: System<State, Event> := System(State([], map[]), Enabled, Next)

  // ---------------------------------------------------------------- the shape of a step

  predicate IsCredit(h: Handler) {
    h.content.Parsed? && Dispatch(h.content.message).Credit?
  }

  predicate IsReport(h: Handler) {
    h.content.Parsed? && Dispatch(h.content.message).Report?
  }

  predicate HasTransaction(h: Handler) {
    IsCredit(h) && h.content.message.transaction.Some?
  }

  /** What a step of handler `h` can change: its own stage, and the end of the table when it saves. */
  ghost predicate Shape(s: State, t: State, h: HandlerId) {
    && h in t.handlers
    && (forall g | g in t.handlers && g != h :: g in s.handlers && t.handlers[g] == s.handlers[g])
    && (forall g | g in s.handlers :: g in t.handlers && SameMessage(s.handlers[g], t.handlers[g]))
    && (t.table == s.table || SavedBy(s, t, h))
    && Moved(s, t, h)
  }

  predicate SameMessage(a: Handler, b: Handler) {
    a.agentId == b.agentId && a.content == b.content
  }

  ghost predicate SavedBy(s: State, t: State, h: HandlerId) {
    && h in s.handlers && s.handlers[h].stage.Pending? && s.handlers[h].stage.order <= MAX_INT
    && HasTransaction(s.handlers[h])
    && t.table == s.table
         + [Row(h, NewRecord(s.handlers[h].agentId, s.handlers[h].content.message, s.handlers[h].stage.order))]
  }

  /** The stage `h` is in after its step, and the one it came from. */
  ghost predicate Moved(s: State, t: State, h: HandlerId)
    requires h in t.handlers
  {
    match t.handlers[h].stage
    case Reading => h !in s.handlers && IsCredit(t.handlers[h])
    case Pending(order) =>
      h in s.handlers && s.handlers[h].stage.Reading?
      && order == MaxOrder(s.table) + 1 && (IsCredit(t.handlers[h]) ==> HasTransaction(t.handlers[h]))
    case Saved(r) => SavedBy(s, t, h) && r == t.table[|s.table|].record
    case Acked(r) => h in s.handlers && s.handlers[h].stage == Saved(r)
    case Requested => h !in s.handlers && IsReport(t.handlers[h])
    case Accepted => h in s.handlers && s.handlers[h].stage.Requested?
    case Collected(rows) =>
      h in s.handlers && s.handlers[h].stage.Accepted?
      && multiset(rows) == multiset(RecordsOf(s.table, s.handlers[h].agentId))
    case Completed(rows, report) =>
      h in s.handlers && s.handlers[h].stage == Collected(rows) && report == ProjectAll(rows)
    case Stopped => h in s.handlers ==> !s.handlers[h].stage.Acked? && !s.handlers[h].stage.Completed?
  }

  /** Only credit messages get as far as saving and acknowledging, only report requests as far as reporting. */
  ghost predicate Wellformed(s: State) {
    forall h | h in s.handlers :: Suits(s.handlers[h])
  }

  predicate Suits(h: Handler) {
    match h.stage
    case Reading => IsCredit(h)
    case Pending(_) => HasTransaction(h)
    case Saved(_) => HasTransaction(h)
    case Acked(_) => HasTransaction(h)
    case Stopped => true
    case _ => IsReport(h)
  }

  lemma StepFrame(s: State, e: Event)
    requires Enabled(s, e)
    ensures var t := Next(s, e);
            && e.h in t.handlers
            && (forall g | g in t.handlers && g != e.h :: g in s.handlers && t.handlers[g] == s.handlers[g])
            && (forall g | g in s.handlers :: g in t.handlers && SameMessage(s.handlers[g], t.handlers[g]))
  {
  }

  lemma StepTable(s: State, e: Event)
    requires Enabled(s, e) && Wellformed(s)
    ensures Next(s, e).table == s.table || SavedBy(s, Next(s, e), e.h)
  {
  }

  lemma StepShape(s: State, e: Event)
    requires Enabled(s, e) && Wellformed(s)
    ensures Shape(s, Next(s, e), e.h)
  {
    StepFrame(s, e);
    StepTable(s, e);
  }

  lemma WellformedStep(s: State, t: State, h: HandlerId)
    requires Wellformed(s) && Shape(s, t, h)
    ensures Wellformed(t)
  {
  }

  lemma {:induction false} AlwaysWellformed(es: seq<Event>)
    requires IsRun(AGENCY, es)
    ensures Wellformed(After(AGENCY, es))
  {
    if es != [] {
      RunShape(es);
    }
  }

  /** `accepted` for a transaction and `completed` for a report answer only a message of that type in state `started`. */
  lemma OnlyStartedMessagesAreAnswered(es: seq<Event>, h: HandlerId)
    requires IsRun(AGENCY, es) && h in After(AGENCY, es).handlers
    ensures var Handler(_, content, stage) := After(AGENCY, es).handlers[h];
            && (stage.Acked? || stage.Completed? ==> content.Parsed? && content.message.state == "started")
            && (stage.Acked? ==> content.message.messageTypeId == "credit_transaction")
            && (stage.Completed? ==> content.message.messageTypeId == "transaction_request")
  {
    AlwaysWellformed(es);
    assert Suits(After(AGENCY, es).handlers[h]);
  }

  /** The last step of a run, by its shape. */
  lemma {:induction false} RunShape(es: seq<Event>)
    requires IsRun(AGENCY, es) && es != []
    ensures Wellformed(After(AGENCY, es))
    ensures Shape(After(AGENCY, es[..|es| - 1]), After(AGENCY, es), es[|es| - 1].h)
  {
    var front, e := es[..|es| - 1], es[|es| - 1];
    if front != [] {
      RunShape(front);
    }
    StepShape(After(AGENCY, front), e);
    WellformedStep(After(AGENCY, front), After(AGENCY, es), e.h);
  }

  lemma Appended(t: seq<Row>, r: Row)
    ensures MaxOrder(t + [r]) == if MaxOrder(t) < r.record.merkelOrder then r.record.merkelOrder else MaxOrder(t)
    ensures forall a :: RecordsOf(t + [r], a) == RecordsOf(t, a) + if r.record.agentId == a then [r.record] else []
  {
    assert (t + [r])[..|t|] == t;
  }

  lemma {:induction false} MaxAtLeast(t: seq<Row>, i: nat)
    requires i < |t|
    ensures t[i].record.merkelOrder <= MaxOrder(t)
  {
    if i < |t| - 1 {
      MaxAtLeast(t[..|t| - 1], i);
    }
  }
}
