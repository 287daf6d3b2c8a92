/**
 What the ledger's records, acknowledgements and reports say about each other, in every run.
 */
module LedgerRecords {
  import opened Runs
  import opened Ledger

  // ---------------------------------------------------------------- where every record comes from

  ghost predicate Finished(stage: Stage, r: Record) {
    stage == Saved(r) || stage == Acked(r) || stage == Stopped
  }

  ghost predicate FromItsMessage(s: State, row: Row) {
    && row.saver in s.handlers
    && var h := s.handlers[row.saver];
       HasTransaction(h) && Finished(h.stage, row.record)
       && row.record == NewRecord(h.agentId, h.content.message, row.record.merkelOrder)
  }

  ghost predicate RowsFromMessages(s: State) {
    forall i | 0 <= i < |s.table| :: FromItsMessage(s, s.table[i])
  }

  ghost predicate OneRowEach(t: seq<Row>) {
    forall i, j | 0 <= i < j < |t| :: t[i].saver != t[j].saver
  }

  ghost predicate Stored(s: State, h: HandlerId)
    requires h in s.handlers
  {
    && (s.handlers[h].stage.Saved? ==> Row(h, s.handlers[h].stage.record) in s.table)
    && (s.handlers[h].stage.Acked? ==> Row(h, s.handlers[h].stage.record) in s.table)
  }

  ghost predicate Sound(s: State) {
    RowsFromMessages(s) && OneRowEach(s.table) && forall h | h in s.handlers :: Stored(s, h)
  }

  lemma RowStep(s: State, t: State, h: HandlerId, row: Row)
    requires Shape(s, t, h) && FromItsMessage(s, row)
    ensures FromItsMessage(t, row)
  {
  }

  lemma NewRow(s: State, t: State, h: HandlerId)
    requires Shape(s, t, h) && t.table != s.table && RowsFromMessages(s)
    ensures var row := t.table[|s.table|];
            FromItsMessage(t, row) && row.saver == h && forall i | 0 <= i < |s.table| :: s.table[i].saver != h
  {
    forall i | 0 <= i < |s.table| ensures s.table[i].saver != h {
      assert FromItsMessage(s, s.table[i]);
    }
  }

  lemma RowsStep(s: State, t: State, h: HandlerId)
    requires Sound(s) && Shape(s, t, h)
    ensures RowsFromMessages(t) && OneRowEach(t.table)
  {
    if t.table != s.table {
      NewRow(s, t, h);
    }
    forall i | 0 <= i < |t.table| ensures FromItsMessage(t, t.table[i]) {
      if i < |s.table| {
        RowStep(s, t, h, s.table[i]);
      }
    }
  }

  lemma StoredStep(s: State, t: State, h: HandlerId, g: HandlerId)
    requires Shape(s, t, h) && g in t.handlers && (g in s.handlers ==> Stored(s, g))
    ensures Stored(t, g)
  {
    assert s.table <= t.table;
    if g == h && t.handlers[h].stage.Saved? {
      assert t.table[|s.table|] in t.table;
    }
  }

  lemma SoundStep(s: State, t: State, h: HandlerId)
    requires Sound(s) && Shape(s, t, h)
    ensures Sound(t)
  {
    RowsStep(s, t, h);
    forall g | g in t.handlers ensures Stored(t, g) { StoredStep(s, t, h, g); }
  }

  lemma {:induction false} AlwaysSound(es: seq<Event>)
    requires IsRun(AGENCY, es)
    ensures Sound(After(AGENCY, es))
  {
    if es != [] {
      AlwaysSound(es[..|es| - 1]);
      RunShape(es);
      SoundStep(After(AGENCY, es[..|es| - 1]), After(AGENCY, es), es[|es| - 1].h);
    }
  }

  lemma {:induction false} HandlersWereReceived(es: seq<Event>, h: HandlerId)
    requires IsRun(AGENCY, es) && h in After(AGENCY, es).handlers
    ensures var Handler(agentId, content, _) := After(AGENCY, es).handlers[h]; Receive(h, agentId, content) in es
  {
    var front, e := es[..|es| - 1], es[|es| - 1];
    RunShape(es);
    if h in After(AGENCY, front).handlers {
      HandlersWereReceived(front, h);
    }
  }

  predicate IsCreditStep(e: Event) { e.ReadMax? || e.Save? || e.Ack? }

  predicate IsReportStep(e: Event) { e.Accept? || e.Collect? || e.Complete? }

  lemma SuitedSteps(s: State, e: Event)
    requires Wellformed(s) && Enabled(s, e) && (IsCreditStep(e) || IsReportStep(e))
    ensures e.h in s.handlers && if IsCreditStep(e) then IsCredit(s.handlers[e.h]) else IsReport(s.handlers[e.h])
  {
    assert Suits(s.handlers[e.h]);
  }

  /**
   In every run each step of a handler was set off by a message received before it, in state `started`
   and of the type this step belongs to: no message makes another type's handler act, and none that
   is malformed, completed or of an unknown type makes any handler act.
   */
  lemma StepsFollowTheirMessage(es: seq<Event>, i: nat)
    requires IsRun(AGENCY, es) && i < |es| && (IsCreditStep(es[i]) || IsReportStep(es[i]))
    ensures exists agentId, m: Message | Receive(es[i].h, agentId, Parsed(m)) in es[..i] ::
              && m.state == "started"
              && m.messageTypeId == if IsCreditStep(es[i]) then "credit_transaction" else "transaction_request"
  {
    Prefix(AGENCY, es, i);
    AlwaysWellformed(es[..i]);
    SuitedSteps(After(AGENCY, es[..i]), es[i]);
    HandlersWereReceived(es[..i], es[i].h);
  }

  /**
   Every row was saved by its own `credit_transaction` message in state `started`, received for
   that agent, and holds that message's fields and the hash of its issuer hash.
   */
  lemma RecordsCopyTheirMessage(es: seq<Event>, i: nat)
    requires IsRun(AGENCY, es) && i < |After(AGENCY, es).table|
    ensures var Row(h, r) := After(AGENCY, es).table[i];
            exists m: Message | Receive(h, r.agentId, Parsed(m)) in es ::
              && m.messageTypeId == "credit_transaction" && m.state == "started" && m.transaction.Some?
              && var x := m.transaction.value;
                 && r.transactionId == m.id && r.credentialId == m.credentialId
                 && r.eventDate == x.eventDate && r.transactionDate == x.date
                 && r.issuerHash == x.fspHash && r.fspId == x.fspId
                 && r.typeId == x.typeId && r.subjectId == x.subjectId && r.amount == x.amount
                 && r.transactionDetails == x.eventJson && r.merkelHash == Hash32(r.issuerHash)
  {
    AlwaysSound(es);
    var s := After(AGENCY, es);
    assert FromItsMessage(s, s.table[i]);
    HandlersWereReceived(es, s.table[i].saver);
  }

  // ---------------------------------------------------------------- real-time order

  lemma {:induction false} TableGrows(es: seq<Event>, i: nat)
    requires IsRun(AGENCY, es) && i <= |es|
    ensures After(AGENCY, es[..i]).table <= After(AGENCY, es).table
    decreases |es|
  {
    if i == |es| {
      assert es[..i] == es;
    } else {
      assert es[..i] == es[..|es| - 1][..i];
      TableGrows(es[..|es| - 1], i);
      RunShape(es);
    }
  }

  /** Once a handler has read the maximum, the order of its record is settled. */
  ghost predicate Settled(s: State, h: HandlerId, order: nat) {
    && h in s.handlers && !s.handlers[h].stage.Reading?
    && (s.handlers[h].stage.Pending? ==> s.handlers[h].stage.order == order)
    && forall i | 0 <= i < |s.table| :: s.table[i].saver == h ==> s.table[i].record.merkelOrder == order
  }

  lemma SettledStep(s: State, t: State, g: HandlerId, h: HandlerId, order: nat)
    requires Shape(s, t, g) && Settled(s, h, order)
    ensures Settled(t, h, order)
  {
  }

  lemma ReadSettles(s: State, t: State, h: HandlerId)
    requires Sound(s) && Enabled(s, ReadMax(h)) && t == Next(s, ReadMax(h))
    ensures Settled(t, h, MaxOrder(s.table) + 1)
  {
    forall i | 0 <= i < |s.table| ensures s.table[i].saver != h {
      assert FromItsMessage(s, s.table[i]);
    }
  }

  lemma {:induction false} OrderIsSettledAtRead(es: seq<Event>, i: nat, h: HandlerId)
    requires IsRun(AGENCY, es) && i < |es| && es[i] == ReadMax(h)
    ensures Settled(After(AGENCY, es), h, MaxOrder(After(AGENCY, es[..i]).table) + 1)
    decreases |es|
  {
    var front := es[..|es| - 1];
    RunShape(es);
    if i == |es| - 1 {
      AlwaysSound(front);
      ReadSettles(After(AGENCY, front), After(AGENCY, es), h);
    } else {
      assert es[..i] == front[..i];
      OrderIsSettledAtRead(front, i, h);
      SettledStep(After(AGENCY, front), After(AGENCY, es), es[|es| - 1].h, h, MaxOrder(After(AGENCY, es[..i]).table) + 1);
    }
  }

  /**
   Real-time order, across all agents: a record that was in the table when another handler read
   the maximum has a strictly smaller order than that handler's record.
   */
  lemma RealTimeOrder(es: seq<Event>, p: nat, q: nat, i: nat)
    requires IsRun(AGENCY, es) && i < |es| && q < |After(AGENCY, es).table|
    requires es[i] == ReadMax(After(AGENCY, es).table[q].saver)
    requires p < |After(AGENCY, es[..i]).table|
    ensures var t := After(AGENCY, es).table;
            p < |t| && t[p].record.merkelOrder < t[q].record.merkelOrder
  {
    TableGrows(es, i);
    MaxAtLeast(After(AGENCY, es[..i]).table, p);
    OrderIsSettledAtRead(es, i, After(AGENCY, es).table[q].saver);
  }

  // ---------------------------------------------------------------- acknowledgements

  ghost predicate Keyed(r: Record, agentId: string, transactionId: string) {
    r.agentId == agentId && r.transactionId == transactionId
  }

  /** The handlers that have sent `accepted` for this transaction. */
  ghost function Acknowledgers(s: State, agentId: string, transactionId: string): set<HandlerId> {
    set h | h in s.handlers && s.handlers[h].stage.Acked? && Keyed(s.handlers[h].stage.record, agentId, transactionId)
  }

  ghost function Savers(t: seq<Row>, agentId: string, transactionId: string): set<HandlerId> {
    if t == [] then {}
    else
      var row := t[|t| - 1];
      Savers(t[..|t| - 1], agentId, transactionId)
      + if Keyed(row.record, agentId, transactionId) then {row.saver} else {}
  }

  ghost function CountKey(t: seq<Row>, agentId: string, transactionId: string): nat {
    if t == [] then 0
    else
      CountKey(t[..|t| - 1], agentId, transactionId)
      + if Keyed(t[|t| - 1].record, agentId, transactionId) then 1 else 0
  }

  lemma {:induction false} SaversCounted(t: seq<Row>, agentId: string, transactionId: string)
    ensures |Savers(t, agentId, transactionId)| <= CountKey(t, agentId, transactionId)
  {
    if t != [] {
      SaversCounted(t[..|t| - 1], agentId, transactionId);
    }
  }

  lemma {:induction false} RowHasSaver(t: seq<Row>, row: Row)
    requires row in t
    ensures row.saver in Savers(t, row.record.agentId, row.record.transactionId)
  {
    if row != t[|t| - 1] {
      RowHasSaver(t[..|t| - 1], row);
    }
  }

  lemma AcknowledgersSaved(s: State, agentId: string, transactionId: string)
    requires Sound(s)
    ensures Acknowledgers(s, agentId, transactionId) <= Savers(s.table, agentId, transactionId)
  {
    forall h | h in Acknowledgers(s, agentId, transactionId) ensures h in Savers(s.table, agentId, transactionId) {
      assert Stored(s, h);
      RowHasSaver(s.table, Row(h, s.handlers[h].stage.record));
    }
  }

  /** In every reachable state a transaction has at least as many records as acknowledgements. */
  lemma AcksNeverExceedRecords(es: seq<Event>, agentId: string, transactionId: string)
    requires IsRun(AGENCY, es)
    ensures |Acknowledgers(After(AGENCY, es), agentId, transactionId)|
         <= CountKey(After(AGENCY, es).table, agentId, transactionId)
  {
    AlwaysSound(es);
    AcknowledgersCounted(After(AGENCY, es), agentId, transactionId);
  }

  lemma AcknowledgersCounted(s: State, agentId: string, transactionId: string)
    requires Sound(s)
    ensures |Acknowledgers(s, agentId, transactionId)| <= CountKey(s.table, agentId, transactionId)
  {
    AcknowledgersSaved(s, agentId, transactionId);
    SaversCounted(s.table, agentId, transactionId);
    var acks, savers := Acknowledgers(s, agentId, transactionId), Savers(s.table, agentId, transactionId);
    assert savers == acks + (savers - acks);
  }

  // ---------------------------------------------------------------- one message alone

  lemma TransactionSteps(s: State, h: HandlerId, agentId: string, m: Message, r: Record)
    requires h !in s.handlers && m.messageTypeId == "credit_transaction" && m.state == "started" && m.transaction.Some?
    requires MaxOrder(s.table) < 2147483647 && r == NewRecord(agentId, m, MaxOrder(s.table) + 1)
    ensures var s1 := Next(s, Receive(h, agentId, Parsed(m))); var s2 := Next(s1, ReadMax(h)); var s3 := Next(s2, Save(h, false));
            && Enabled(s, Receive(h, agentId, Parsed(m))) && Enabled(s1, ReadMax(h)) && Enabled(s2, Save(h, false))
            && Enabled(s3, Ack(h))
            && Next(s3, Ack(h)) == State(s.table + [Row(h, r)], s.handlers[h := Handler(agentId, Parsed(m), Acked(r))])
  {
  }

  ghost function TransactionAlone(es: seq<Event>, h: HandlerId, agentId: string, m: Message): seq<Event> {
    es + [Receive(h, agentId, Parsed(m))] + [ReadMax(h)] + [Save(h, false)] + [Ack(h)]
  }

  /** After any history a started transaction that nobody interrupts adds exactly its record, with the next order, and is acknowledged. */
  lemma TransactionAloneIsRecorded(es: seq<Event>, h: HandlerId, agentId: string, m: Message)
    requires IsRun(AGENCY, es) && h !in After(AGENCY, es).handlers && MaxOrder(After(AGENCY, es).table) < 2147483647
    requires m.messageTypeId == "credit_transaction" && m.state == "started" && m.transaction.Some?
    ensures IsRun(AGENCY, TransactionAlone(es, h, agentId, m))
    ensures var s, x := After(AGENCY, es), m.transaction.value;
            var r := Record(agentId, m.id, x.eventDate, x.fspHash, x.fspId, MaxOrder(s.table) + 1, Hash32(x.fspHash),
                            m.credentialId, x.date, x.typeId, x.subjectId, x.amount, x.eventJson);
            After(AGENCY, TransactionAlone(es, h, agentId, m))
            == State(s.table + [Row(h, r)], s.handlers[h := Handler(agentId, Parsed(m), Acked(r))])
  {
    var s := After(AGENCY, es);
    TransactionSteps(s, h, agentId, m, NewRecord(agentId, m, MaxOrder(s.table) + 1));
    Extend3(AGENCY, es, Receive(h, agentId, Parsed(m)), ReadMax(h), Save(h, false));
    Extend4(AGENCY, es, Receive(h, agentId, Parsed(m)), ReadMax(h), Save(h, false), Ack(h));
  }

  lemma ReportSteps(s: State, h: HandlerId, agentId: string, m: Message, rows: seq<Record>)
    requires h !in s.handlers && m.messageTypeId == "transaction_request" && m.state == "started"
    requires multiset(rows) == multiset(RecordsOf(s.table, agentId))
    ensures var s1 := Next(s, Receive(h, agentId, Parsed(m))); var s2 := Next(s1, Accept(h, false));
            var s3 := Next(s2, Collect(h, rows));
            && Enabled(s, Receive(h, agentId, Parsed(m))) && Enabled(s1, Accept(h, false)) && Enabled(s2, Collect(h, rows))
            && Enabled(s3, Complete(h))
            && Next(s3, Complete(h)) == s.(handlers := s.handlers[h := Handler(agentId, Parsed(m), Completed(rows, ProjectAll(rows)))])
  {
  }

  ghost function ReportAlone(es: seq<Event>, h: HandlerId, agentId: string, m: Message, rows: seq<Record>): seq<Event> {
    es + [Receive(h, agentId, Parsed(m))] + [Accept(h, false)] + [Collect(h, rows)] + [Complete(h)]
  }

  /** And a started report request is answered with all its agent's records, in any order, and changes nothing else. */
  lemma ReportAloneIsAnswered(es: seq<Event>, h: HandlerId, agentId: string, m: Message, rows: seq<Record>)
    requires IsRun(AGENCY, es) && h !in After(AGENCY, es).handlers
    requires m.messageTypeId == "transaction_request" && m.state == "started"
    requires multiset(rows) == multiset(RecordsOf(After(AGENCY, es).table, agentId))
    ensures IsRun(AGENCY, ReportAlone(es, h, agentId, m, rows))
    ensures var s := After(AGENCY, es);
            After(AGENCY, ReportAlone(es, h, agentId, m, rows))
            == s.(handlers := s.handlers[h := Handler(agentId, Parsed(m), Completed(rows, ProjectAll(rows)))])
  {
    ReportSteps(After(AGENCY, es), h, agentId, m, rows);
    Extend3(AGENCY, es, Receive(h, agentId, Parsed(m)), Accept(h, false), Collect(h, rows));
    Extend4(AGENCY, es, Receive(h, agentId, Parsed(m)), Accept(h, false), Collect(h, rows), Complete(h));
  }
}
