/**
 What a completed report contains, in every run.  The rows of a report come back from the
 database in any order, so its content is stated as a multiset.
 */
module LedgerReports {
  import opened Runs
  import opened Ledger
  import opened LedgerRecords

  // ---------------------------------------------------------------- multisets of records

  lemma {:induction false} RecordsGrow(t: seq<Row>, u: seq<Row>, agentId: string)
    requires t <= u
    ensures multiset(RecordsOf(t, agentId)) <= multiset(RecordsOf(u, agentId))
    decreases |u|
  {
    if t != u {
      assert t <= u[..|u| - 1];
      RecordsGrow(t, u[..|u| - 1], agentId);
    }
  }

  lemma ProjectSplit(a: seq<Record>, j: nat)
    requires j < |a|
    ensures multiset(ProjectAll(a)) == multiset(ProjectAll(a[..j] + a[j + 1..])) + multiset{Project(a[j])}
    ensures multiset(a) == multiset(a[..j] + a[j + 1..]) + multiset{a[j]}
  {
    assert ProjectAll(a) == ProjectAll(a[..j]) + [Project(a[j])] + ProjectAll(a[j + 1..]);
    assert ProjectAll(a[..j] + a[j + 1..]) == ProjectAll(a[..j]) + ProjectAll(a[j + 1..]);
    assert a == a[..j] + [a[j]] + a[j + 1..];
  }

  /** Projection keeps inclusion of multisets. */
  lemma {:induction false} ProjectMonotone(a: seq<Record>, b: seq<Record>)
    requires multiset(a) <= multiset(b)
    ensures multiset(ProjectAll(a)) <= multiset(ProjectAll(b))
    decreases |a|
  {
    if a != [] {
      var n := |a| - 1;
      assert a[n] in multiset(a);
      var j :| 0 <= j < |b| && b[j] == a[n];
      ProjectSplit(a, n);
      ProjectSplit(b, j);
      assert a[..n] + a[n + 1..] == a[..n];
      LessByOne(multiset(a[..n]), multiset(b[..j] + b[j + 1..]), a[n]);
      ProjectMonotone(a[..n], b[..j] + b[j + 1..]);
    }
  }

  lemma LessByOne<T>(a: multiset<T>, b: multiset<T>, x: T)
    requires a + multiset{x} <= b + multiset{x}
    ensures a <= b
  {
    forall y ensures a[y] <= b[y] {
      assert (a + multiset{x})[y] <= (b + multiset{x})[y];
    }
  }

  // ---------------------------------------------------------------- one report

  /** `rows` lies between what the agent had in `t` and what it has in `u`. */
  ghost predicate Between(t: seq<Row>, rows: seq<Record>, u: seq<Row>, agentId: string) {
    multiset(RecordsOf(t, agentId)) <= multiset(rows) <= multiset(RecordsOf(u, agentId))
  }

  /** Event `j` collects `rows` for handler `h`: the records of agent `agentId` in the table of that moment. */
  ghost predicate Taken(es: seq<Event>, j: nat, h: HandlerId, agentId: string, rows: seq<Record>) {
    && j < |es| && es[j] == Collect(h, rows)
    && multiset(rows) == multiset(RecordsOf(After(AGENCY, es[..j]).table, agentId))
  }

  /** What report handler `h` holds it has collected at one moment after event `i`. */
  ghost predicate Collecting(es: seq<Event>, i: nat, h: HandlerId) {
    var s := After(AGENCY, es);
    && h in s.handlers
    && match s.handlers[h].stage
       case Accepted => true
       case Collected(rows) => exists j | i < j < |es| :: Taken(es, j, h, s.handlers[h].agentId, rows)
       case Completed(rows, report) =>
         report == ProjectAll(rows) && exists j | i < j < |es| :: Taken(es, j, h, s.handlers[h].agentId, rows)
       case Stopped => true
       case _ => false
  }

  /** Rows come into a handler's hands only by its own `Collect`. */
  lemma CollectStep(s: State, e: Event, h: HandlerId)
    requires Enabled(s, e) && h in s.handlers && !s.handlers[h].stage.Collected? && Next(s, e).handlers[h].stage.Collected?
    ensures var t := Next(s, e);
            && e == Collect(h, t.handlers[h].stage.rows)
            && multiset(t.handlers[h].stage.rows) == multiset(RecordsOf(s.table, t.handlers[h].agentId))
  {
  }

  lemma TakenStill(es: seq<Event>, j: nat, h: HandlerId, agentId: string, rows: seq<Record>)
    requires es != [] && Taken(es[..|es| - 1], j, h, agentId, rows)
    ensures Taken(es, j, h, agentId, rows)
  {
    assert es[..|es| - 1][..j] == es[..j];
  }

  lemma CollectingStep(es: seq<Event>, i: nat, h: HandlerId)
    requires IsRun(AGENCY, es) && i < |es| - 1 && Collecting(es[..|es| - 1], i, h)
    ensures Collecting(es, i, h)
  {
    var front, e := es[..|es| - 1], es[|es| - 1];
    var s, t := After(AGENCY, front), After(AGENCY, es);
    RunShape(es);
    if t.handlers[h].stage.Collected? && !s.handlers[h].stage.Collected? {
      CollectStep(s, e, h);
      assert Taken(es, |es| - 1, h, t.handlers[h].agentId, t.handlers[h].stage.rows);
    } else if s.handlers[h].stage.Collected? || s.handlers[h].stage.Completed? {
      var j :| i < j < |front| && Taken(front, j, h, s.handlers[h].agentId, s.handlers[h].stage.rows);
      TakenStill(es, j, h, s.handlers[h].agentId, s.handlers[h].stage.rows);
    }
  }

  lemma {:induction false} CollectsSinceAccepted(es: seq<Event>, i: nat, h: HandlerId)
    requires IsRun(AGENCY, es) && i < |es| && es[i] == Accept(h, false)
    ensures Collecting(es, i, h)
    decreases |es|
  {
    RunShape(es);
    if i < |es| - 1 {
      CollectsSinceAccepted(es[..|es| - 1], i, h);
      CollectingStep(es, i, h);
    }
  }

  /** The state of report handler `h` once it has completed. */
  ghost predicate Reported(s: State, h: HandlerId) {
    h in s.handlers && s.handlers[h].stage.Completed?
  }

  lemma ReportIsFixed(es: seq<Event>, k: nat, h: HandlerId)
    requires IsRun(AGENCY, es) && k <= |es| && Reported(After(AGENCY, es[..k]), h)
    ensures Reported(After(AGENCY, es), h) && After(AGENCY, es).handlers[h] == After(AGENCY, es[..k]).handlers[h]
    decreases |es|
  {
    if k == |es| {
      assert es[..k] == es;
    } else {
      assert es[..k] == es[..|es| - 1][..k];
      ReportIsFixed(es[..|es| - 1], k, h);
      RunShape(es);
    }
  }

  lemma CompleteStep(s: State, h: HandlerId)
    requires Enabled(s, Complete(h))
    ensures var t := Next(s, Complete(h)); var rows := s.handlers[h].stage.rows;
            h in t.handlers && t.handlers[h] == s.handlers[h].(stage := Completed(rows, ProjectAll(rows)))
  {
  }

  /**
   A report is the projection of one snapshot: there is one moment between its `accepted` and its
   `completed` at which it collected exactly the records its agent then had.
   */
  lemma ReportIsOneSnapshot(es: seq<Event>, i: nat, k: nat, h: HandlerId)
    requires IsRun(AGENCY, es) && i < k < |es| && es[i] == Accept(h, false) && es[k] == Complete(h)
    ensures Reported(After(AGENCY, es), h)
    ensures var Handler(agentId, _, stage) := After(AGENCY, es).handlers[h];
            && stage.report == ProjectAll(stage.rows)
            && exists j | i < j < k :: Taken(es, j, h, agentId, stage.rows)
  {
    Prefix(AGENCY, es, k);
    CollectsSinceAccepted(es[..k], i, h);
    CompleteStep(After(AGENCY, es[..k]), h);
    ReportIsFixed(es, k + 1, h);
    var Handler(agentId, _, stage) := After(AGENCY, es).handlers[h];
    var j :| i < j < k && Taken(es[..k], j, h, agentId, stage.rows);
    TakenBefore(es, k, j, h, agentId, stage.rows);
  }

  lemma TakenBefore(es: seq<Event>, k: nat, j: nat, h: HandlerId, agentId: string, rows: seq<Record>)
    requires k <= |es| && Taken(es[..k], j, h, agentId, rows)
    ensures Taken(es, j, h, agentId, rows)
  {
    assert es[..k][..j] == es[..j];
  }

  lemma ReportedBetween(es: seq<Event>, i: nat, k: nat, h: HandlerId)
    requires IsRun(AGENCY, es) && i < k < |es| && es[i] == Accept(h, false) && es[k] == Complete(h)
    ensures Reported(After(AGENCY, es), h)
    ensures var Handler(agentId, _, stage) := After(AGENCY, es).handlers[h];
            stage.report == ProjectAll(stage.rows)
            && Between(After(AGENCY, es[..i]).table, stage.rows, After(AGENCY, es[..k]).table, agentId)
  {
    ReportIsOneSnapshot(es, i, k, h);
    var Handler(agentId, _, stage) := After(AGENCY, es).handlers[h];
    var j :| i < j < k && Taken(es, j, h, agentId, stage.rows);
    RecordsOnlyGrow(es, i, j, agentId);
    RecordsOnlyGrow(es, j, k, agentId);
  }

  lemma RecordsOnlyGrow(es: seq<Event>, i: nat, j: nat, agentId: string)
    requires IsRun(AGENCY, es) && i <= j <= |es|
    ensures multiset(RecordsOf(After(AGENCY, es[..i]).table, agentId)) <= multiset(RecordsOf(After(AGENCY, es[..j]).table, agentId))
  {
    Prefix(AGENCY, es, j);
    assert es[..j][..i] == es[..i];
    TableGrows(es[..j], i);
    RecordsGrow(After(AGENCY, es[..i]).table, After(AGENCY, es[..j]).table, agentId);
  }

  /**
   A report accepted at event `i` and completed at event `k` is the projection of records of its
   agent alone: all those saved before `accepted` was sent, and none saved after `completed`.
   */
  lemma ReportHoldsItsWindow(es: seq<Event>, i: nat, k: nat, h: HandlerId)
    requires IsRun(AGENCY, es) && i < k < |es| && es[i] == Accept(h, false) && es[k] == Complete(h)
    ensures Reported(After(AGENCY, es), h)
    ensures var Handler(agentId, _, stage) := After(AGENCY, es).handlers[h];
            && multiset(ProjectAll(RecordsOf(After(AGENCY, es[..i]).table, agentId))) <= multiset(stage.report)
            && multiset(stage.report) <= multiset(ProjectAll(RecordsOf(After(AGENCY, es[..k]).table, agentId)))
  {
    ReportedBetween(es, i, k, h);
    var Handler(agentId, _, stage) := After(AGENCY, es).handlers[h];
    ProjectMonotone(RecordsOf(After(AGENCY, es[..i]).table, agentId), stage.rows);
    ProjectMonotone(stage.rows, RecordsOf(After(AGENCY, es[..k]).table, agentId));
  }

  /** Line by line, a report copies the fields of the records that were collected for it. */
  lemma ReportLinesCopyRecords(es: seq<Event>, i: nat, k: nat, h: HandlerId, n: nat)
    requires IsRun(AGENCY, es) && i < k < |es| && es[i] == Accept(h, false) && es[k] == Complete(h)
    requires Reported(After(AGENCY, es), h) && n < |After(AGENCY, es).handlers[h].stage.report|
    ensures var Handler(agentId, _, stage) := After(AGENCY, es).handlers[h];
            |stage.rows| == |stage.report| &&
            var line, r := stage.report[n], stage.rows[n];
            && r in RecordsOf(After(AGENCY, es[..k]).table, agentId)
            && line.order == r.merkelOrder && line.transactionId == r.transactionId && line.typeId == r.typeId
            && line.subjectId == r.subjectId && line.txDate == r.transactionDate && line.amount == r.amount
            && line.credentialId == r.credentialId && line.hash == r.issuerHash && line.details == r.transactionDetails
  {
    ReportedBetween(es, i, k, h);
    var Handler(agentId, _, stage) := After(AGENCY, es).handlers[h];
    assert stage.rows[n] in multiset(stage.rows);
  }

  lemma LaterReportsHoldMore(es: seq<Event>, k: nat, i: nat, agentId: string)
    requires IsRun(AGENCY, es) && k <= i <= |es|
    ensures multiset(ProjectAll(RecordsOf(After(AGENCY, es[..k]).table, agentId)))
         <= multiset(ProjectAll(RecordsOf(After(AGENCY, es[..i]).table, agentId)))
  {
    RecordsOnlyGrow(es, k, i, agentId);
    ProjectMonotone(RecordsOf(After(AGENCY, es[..k]).table, agentId), RecordsOf(After(AGENCY, es[..i]).table, agentId));
  }

  /** Reports of one agent only grow: a report accepted after another was completed contains it. */
  lemma ReportsGrow(es: seq<Event>, i: nat, k: nat, h: HandlerId, i': nat, k': nat, h': HandlerId)
    requires IsRun(AGENCY, es) && i < k <= i' < k' < |es|
    requires es[i] == Accept(h, false) && es[k] == Complete(h)
    requires es[i'] == Accept(h', false) && es[k'] == Complete(h')
    ensures Reported(After(AGENCY, es), h) && Reported(After(AGENCY, es), h')
    ensures var first, second := After(AGENCY, es).handlers[h], After(AGENCY, es).handlers[h'];
            first.agentId == second.agentId ==> multiset(first.stage.report) <= multiset(second.stage.report)
  {
    ReportHoldsItsWindow(es, i, k, h);
    ReportHoldsItsWindow(es, i', k', h');
    LaterReportsHoldMore(es, k, i', After(AGENCY, es).handlers[h].agentId);
  }

  lemma {:induction false} RowIsListed(t: seq<Row>, row: Row)
    requires row in t
    ensures row.record in RecordsOf(t, row.record.agentId)
  {
    if row != t[|t| - 1] {
      RowIsListed(t[..|t| - 1], row);
    }
  }

  lemma ProjectedMember(rs: seq<Record>, r: Record)
    requires r in rs
    ensures Project(r) in multiset(ProjectAll(rs))
  {
    var i :| 0 <= i < |rs| && rs[i] == r;
    assert ProjectAll(rs)[i] == Project(r);
  }

  lemma Included(a: seq<Record>, b: seq<Record>, r: Record)
    requires multiset(a) <= multiset(b) && r in a
    ensures r in b
  {
    assert r in multiset(a);
  }

  lemma AcknowledgedIsListed(es: seq<Event>, a: nat, i: nat, g: HandlerId)
    requires IsRun(AGENCY, es) && a < i < |es| && es[a] == Ack(g)
    ensures var before := After(AGENCY, es[..a]);
            && g in before.handlers && before.handlers[g].stage.Saved?
            && var r := before.handlers[g].stage.record; r in RecordsOf(After(AGENCY, es[..i]).table, r.agentId)
  {
    Prefix(AGENCY, es, a);
    AlwaysSound(es[..a]);
    var before := After(AGENCY, es[..a]);
    assert Stored(before, g);
    var r := before.handlers[g].stage.record;
    RowIsListed(before.table, Row(g, r));
    RecordsOnlyGrow(es, a, i, r.agentId);
    Included(RecordsOf(before.table, r.agentId), RecordsOf(After(AGENCY, es[..i]).table, r.agentId), r);
  }

  /** A transaction acknowledged before a report of its agent is accepted is in that report. */
  lemma AcknowledgedIsReported(es: seq<Event>, a: nat, i: nat, k: nat, g: HandlerId, h: HandlerId)
    requires IsRun(AGENCY, es) && a < i < k < |es|
    requires es[a] == Ack(g) && es[i] == Accept(h, false) && es[k] == Complete(h)
    ensures var s, before := After(AGENCY, es), After(AGENCY, es[..a]);
            && Reported(s, h) && g in before.handlers && before.handlers[g].stage.Saved?
            && var r := before.handlers[g].stage.record;
               s.handlers[h].agentId == r.agentId ==> Project(r) in s.handlers[h].stage.report
  {
    AcknowledgedIsListed(es, a, i, g);
    ReportHoldsItsWindow(es, i, k, h);
    var r := After(AGENCY, es[..a]).handlers[g].stage.record;
    ProjectedMember(RecordsOf(After(AGENCY, es[..i]).table, r.agentId), r);
  }

  // ---------------------------------------------------------------- reports for all agents

  function AllRecords(t: seq<Row>): seq<Record> {
    seq(|t|, i requires 0 <= i < |t| => t[i].record)
  }

  /** The records reported for the agents of a list, one report each. */
  function ReportedFor(t: seq<Row>, agents: seq<string>): seq<Record> {
    if agents == [] then [] else RecordsOf(t, agents[0]) + ReportedFor(t, agents[1..])
  }

  ghost predicate NoRepeats(agents: seq<string>) {
    forall i, j | 0 <= i < j < |agents| :: agents[i] != agents[j]
  }

  lemma ReportedForSplits(t: seq<Row>, agents: seq<string>)
    requires agents != []
    ensures multiset(ReportedFor(t, agents)) == multiset(RecordsOf(t, agents[0])) + multiset(ReportedFor(t, agents[1..]))
  {
  }

  /** What a new row adds to the reports of some agents. */
  function Added(row: Row, concerned: bool): multiset<Record> {
    if concerned then multiset{row.record} else multiset{}
  }

  lemma RecordsAppended(t: seq<Row>, row: Row, agentId: string)
    ensures multiset(RecordsOf(t + [row], agentId))
         == multiset(RecordsOf(t, agentId)) + Added(row, row.record.agentId == agentId)
  {
    Appended(t, row);
  }

  lemma AddedOnce(row: Row, agents: seq<string>)
    requires NoRepeats(agents) && agents != []
    ensures Added(row, row.record.agentId in agents)
         == Added(row, row.record.agentId == agents[0]) + Added(row, row.record.agentId in agents[1..])
  {
  }

  lemma AddUp<T>(a: multiset<T>, x: multiset<T>, b: multiset<T>, y: multiset<T>)
    ensures (a + x) + (b + y) == (a + b) + (x + y)
  {
  }

  lemma {:induction false} ReportedForAppended(t: seq<Row>, row: Row, agents: seq<string>)
    requires NoRepeats(agents)
    ensures multiset(ReportedFor(t + [row], agents))
         == multiset(ReportedFor(t, agents)) + Added(row, row.record.agentId in agents)
  {
    if agents != [] {
      var first, rest := agents[0], agents[1..];
      ReportedForSplits(t, agents);
      ReportedForSplits(t + [row], agents);
      RecordsAppended(t, row, first);
      ReportedForAppended(t, row, rest);
      AddedOnce(row, agents);
      AddUp(multiset(RecordsOf(t, first)), Added(row, row.record.agentId == first),
            multiset(ReportedFor(t, rest)), Added(row, row.record.agentId in rest));
    }
  }

  lemma {:induction false} AgentsPartitionTable(t: seq<Row>, agents: seq<string>)
    requires NoRepeats(agents) && forall i | 0 <= i < |t| :: t[i].record.agentId in agents
    ensures multiset(ReportedFor(t, agents)) == multiset(AllRecords(t))
  {
    if t == [] {
      ReportsOfNothing(agents);
    } else {
      var front, row := t[..|t| - 1], t[|t| - 1];
      assert front + [row] == t;
      assert AllRecords(t) == AllRecords(front) + [row.record];
      AgentsPartitionTable(front, agents);
      ReportedForAppended(front, row, agents);
    }
  }

  lemma {:induction false} ReportsOfNothing(agents: seq<string>)
    ensures ReportedFor([], agents) == []
  {
    if agents != [] {
      ReportsOfNothing(agents[1..]);
    }
  }

  /** What a handler has collected it goes on to report, unless it fails. */
  ghost predicate Keeps(s: State, h: HandlerId, rows: seq<Record>, agentId: string) {
    && h in s.handlers && s.handlers[h].agentId == agentId
    && match s.handlers[h].stage
       case Collected(rows') => rows' == rows
       case Completed(rows', report) => rows' == rows && report == ProjectAll(rows)
       case Stopped => true
       case _ => false
  }

  lemma KeepsStep(s: State, t: State, g: HandlerId, h: HandlerId, rows: seq<Record>, agentId: string)
    requires Shape(s, t, g) && Keeps(s, h, rows, agentId)
    ensures Keeps(t, h, rows, agentId)
  {
  }

  lemma Collects(s: State, h: HandlerId, rows: seq<Record>)
    requires Enabled(s, Collect(h, rows))
    ensures multiset(rows) == multiset(RecordsOf(s.table, s.handlers[h].agentId))
    ensures Keeps(Next(s, Collect(h, rows)), h, rows, s.handlers[h].agentId)
  {
  }

  lemma {:induction false} KeepsWhatItCollects(es: seq<Event>, j: nat, h: HandlerId)
    requires IsRun(AGENCY, es) && j < |es| && es[j].Collect? && es[j].h == h && h in After(AGENCY, es).handlers
    ensures Keeps(After(AGENCY, es), h, es[j].rows, After(AGENCY, es).handlers[h].agentId)
    ensures multiset(es[j].rows)
         == multiset(RecordsOf(After(AGENCY, es[..j]).table, After(AGENCY, es).handlers[h].agentId))
    decreases |es|
  {
    var front := es[..|es| - 1];
    if j == |es| - 1 {
      Collects(After(AGENCY, front), h, es[j].rows);
    } else {
      assert es[..j] == front[..j];
      RunShape(es);
      HandlersStay(front, j, h);
      KeepsWhatItCollects(front, j, h);
      KeepsStep(After(AGENCY, front), After(AGENCY, es), es[|es| - 1].h, h, es[j].rows, After(AGENCY, front).handlers[h].agentId);
    }
  }

  lemma {:induction false} HandlersStay(es: seq<Event>, j: nat, h: HandlerId)
    requires IsRun(AGENCY, es) && j < |es| && es[j].Collect? && es[j].h == h
    ensures h in After(AGENCY, es).handlers
    decreases |es|
  {
    RunShape(es);
    if j < |es| - 1 {
      HandlersStay(es[..|es| - 1], j, h);
    }
  }

  /** Handler `h` has reported to its agent and collected its rows when the table was `t`. */
  ghost predicate ReportedOn(es: seq<Event>, h: HandlerId, t: seq<Row>) {
    && Reported(After(AGENCY, es), h)
    && exists j | 0 <= j < |es| && es[j].Collect? :: es[j].h == h && After(AGENCY, es[..j]).table == t
  }

  ghost predicate AllReportedOn(es: seq<Event>, hs: seq<HandlerId>, t: seq<Row>) {
    forall n | 0 <= n < |hs| ::
      && hs[n] in After(AGENCY, es).handlers && After(AGENCY, es).handlers[hs[n]].stage.Completed?
      && ReportedOn(es, hs[n], t)
  }

  lemma ReportOnTable(es: seq<Event>, h: HandlerId, t: seq<Row>)
    requires IsRun(AGENCY, es) && ReportedOn(es, h, t)
    ensures var Handler(agentId, _, stage) := After(AGENCY, es).handlers[h];
            multiset(stage.report) == multiset(ProjectAll(RecordsOf(t, agentId)))
  {
    var j :| 0 <= j < |es| && es[j].Collect? && es[j].h == h && After(AGENCY, es[..j]).table == t;
    KeepsWhatItCollects(es, j, h);
    ProjectSame(es[j].rows, RecordsOf(t, After(AGENCY, es).handlers[h].agentId));
  }

  lemma ProjectSame(a: seq<Record>, b: seq<Record>)
    requires multiset(a) == multiset(b)
    ensures multiset(ProjectAll(a)) == multiset(ProjectAll(b))
  {
    ProjectMonotone(a, b);
    ProjectMonotone(b, a);
  }

  /** The lines of several reports. */
  function AllLines(s: State, hs: seq<HandlerId>): seq<ReportRow>
    requires forall n | 0 <= n < |hs| :: hs[n] in s.handlers && s.handlers[hs[n]].stage.Completed?
  {
    if hs == [] then [] else s.handlers[hs[0]].stage.report + AllLines(s, hs[1..])
  }

  function AgentsOf(s: State, hs: seq<HandlerId>): seq<string>
    requires forall n | 0 <= n < |hs| :: hs[n] in s.handlers
  {
    seq(|hs|, n requires 0 <= n < |hs| => s.handlers[hs[n]].agentId)
  }

  lemma ProjectAppends(a: seq<Record>, b: seq<Record>)
    ensures ProjectAll(a + b) == ProjectAll(a) + ProjectAll(b)
  {
  }

  lemma AppendedMultisets<T>(a: seq<T>, b: seq<T>, a': seq<T>, b': seq<T>)
    requires multiset(a) == multiset(a') && multiset(b) == multiset(b')
    ensures multiset(a + b) == multiset(a' + b')
  {
  }

  lemma {:induction false} LinesAreProjected(es: seq<Event>, hs: seq<HandlerId>, t: seq<Row>)
    requires IsRun(AGENCY, es) && AllReportedOn(es, hs, t)
    ensures multiset(AllLines(After(AGENCY, es), hs))
         == multiset(ProjectAll(ReportedFor(t, AgentsOf(After(AGENCY, es), hs))))
  {
    if hs != [] {
      var s, rest := After(AGENCY, es), hs[1..];
      var agentId := s.handlers[hs[0]].agentId;
      assert ReportedOn(es, hs[0], t);
      ReportOnTable(es, hs[0], t);
      LinesAreProjected(es, rest, t);
      assert AgentsOf(s, hs)[1..] == AgentsOf(s, rest);
      ProjectAppends(RecordsOf(t, agentId), ReportedFor(t, AgentsOf(s, rest)));
      AppendedMultisets(s.handlers[hs[0]].stage.report, AllLines(s, rest),
                        ProjectAll(RecordsOf(t, agentId)), ProjectAll(ReportedFor(t, AgentsOf(s, rest))));
    }
  }

  /**
   Reports of different agents that were collected when the table was `t`, one for every agent that
   had a record in it, split the ledger: together they hold each of its records exactly once.
   */
  lemma ReportsPartitionLedger(es: seq<Event>, hs: seq<HandlerId>, t: seq<Row>)
    requires IsRun(AGENCY, es) && AllReportedOn(es, hs, t)
    requires NoRepeats(AgentsOf(After(AGENCY, es), hs))
    requires forall i | 0 <= i < |t| :: t[i].record.agentId in AgentsOf(After(AGENCY, es), hs)
    ensures multiset(AllLines(After(AGENCY, es), hs)) == multiset(ProjectAll(AllRecords(t)))
  {
    var agents := AgentsOf(After(AGENCY, es), hs);
    LinesAreProjected(es, hs, t);
    AgentsPartitionTable(t, agents);
    ProjectSame(ReportedFor(t, agents), AllRecords(t));
  }
}
