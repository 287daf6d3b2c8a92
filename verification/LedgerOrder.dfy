/**
 The order of the ledger under races: what `merkel_order` still means when several handlers
 read the maximum before any of them has saved.
 */
module LedgerOrder {
  import opened Runs
  import opened Ledger

  // ---------------------------------------------------------------- no gaps

  function Orders(table: seq<Row>): set<nat> {
    if table == [] then {} else Orders(table[..|table| - 1]) + {table[|table| - 1].record.merkelOrder}
  }

  /** The saved orders are exactly 1 up to the maximum, and nobody is about to save past the next one. */
  ghost predicate Dense(s: State) {
    && (forall v: nat :: v in Orders(s.table) <==> 1 <= v <= MaxOrder(s.table))
    && forall h | h in s.handlers && s.handlers[h].stage.Pending? ::
         1 <= s.handlers[h].stage.order <= MaxOrder(s.table) + 1
  }

  lemma AppendedOrders(t: seq<Row>, r: Row)
    ensures Orders(t + [r]) == Orders(t) + {r.record.merkelOrder}
    ensures forall v :: CountOrder(t + [r], v) == CountOrder(t, v) + if r.record.merkelOrder == v then 1 else 0
  {
    assert (t + [r])[..|t|] == t;
  }

  lemma DenseStep(s: State, t: State, h: HandlerId)
    requires Dense(s) && Shape(s, t, h)
    ensures Dense(t)
  {
    if t.table != s.table {
      Appended(s.table, t.table[|s.table|]);
      AppendedOrders(s.table, t.table[|s.table|]);
    }
  }

  /** Whatever the races and the failed saves, the saved orders are exactly 1, 2, ..., max: never a gap. */
  lemma {:induction false} NoGaps(es: seq<Event>)
    requires IsRun(AGENCY, es)
    ensures Dense(After(AGENCY, es))
  {
    if es != [] {
      NoGaps(es[..|es| - 1]);
      RunShape(es);
      DenseStep(After(AGENCY, es[..|es| - 1]), After(AGENCY, es), es[|es| - 1].h);
    }
  }

  // ---------------------------------------------------------------- bounded duplication

  function CountOrder(table: seq<Row>, v: nat): nat {
    if table == [] then 0
    else CountOrder(table[..|table| - 1], v) + if table[|table| - 1].record.merkelOrder == v then 1 else 0
  }

  /** The handlers in the window between reading the maximum and saving. */
  ghost function Window(s: State): set<HandlerId> {
    set h | h in s.handlers && s.handlers[h].stage.Pending?
  }

  ghost function WindowAt(s: State, v: nat): set<HandlerId> {
    set h | h in s.handlers && s.handlers[h].stage == Pending(v)
  }

  /** At no time in the run are more than `k` handlers in the window. */
  ghost predicate WindowAtMost(es: seq<Event>, k: nat) {
    |Window(After(AGENCY, es))| <= k && (es != [] ==> WindowAtMost(es[..|es| - 1], k))
  }

  /** How many records hold, or are about to hold, order `v`. */
  ghost function Holding(s: State, v: nat): nat {
    CountOrder(s.table, v) + |WindowAt(s, v)|
  }

  lemma {:induction false} NoneAboveMax(t: seq<Row>, v: nat)
    requires v > MaxOrder(t)
    ensures CountOrder(t, v) == 0
  {
    if t != [] {
      NoneAboveMax(t[..|t| - 1], v);
    }
  }

  lemma Subset<T>(a: set<T>, b: set<T>)
    requires a <= b
    ensures |a| <= |b|
  {
    assert b == a + (b - a);
  }

  lemma HoldingStep(s: State, t: State, h: HandlerId, v: nat, k: nat)
    requires Shape(s, t, h)
    requires Holding(s, v) <= k && |Window(t)| <= k
    ensures Holding(t, v) <= k
  {
    if h in WindowAt(t, v) {
      NoneAboveMax(s.table, v);
      Subset(WindowAt(t, v), Window(t));
    } else {
      assert WindowAt(t, v) == WindowAt(s, v) - {h};
      if t.table != s.table {
        AppendedOrders(s.table, t.table[|s.table|]);
      }
    }
  }

  /** If at most `k` handlers are ever in the window, no order is held more than `k` times. */
  lemma {:induction false} EachOrderHeldAtMost(es: seq<Event>, k: nat, v: nat)
    requires IsRun(AGENCY, es) && WindowAtMost(es, k)
    ensures Holding(After(AGENCY, es), v) <= k
  {
    if es != [] {
      var front := es[..|es| - 1];
      EachOrderHeldAtMost(front, k, v);
      RunShape(es);
      HoldingStep(After(AGENCY, front), After(AGENCY, es), es[|es| - 1].h, v, k);
    } else {
      assert WindowAt(AGENCY.init, v) == {};
    }
  }

  function CountUpTo(table: seq<Row>, m: nat): nat {
    if table == [] then 0
    else CountUpTo(table[..|table| - 1], m) + if 1 <= table[|table| - 1].record.merkelOrder <= m then 1 else 0
  }

  lemma {:induction false} CountUpToSplits(t: seq<Row>, m: nat)
    requires m > 0
    ensures CountUpTo(t, m) == CountUpTo(t, m - 1) + CountOrder(t, m)
  {
    if t != [] {
      CountUpToSplits(t[..|t| - 1], m);
    }
  }

  lemma {:induction false} CountUpToNone(t: seq<Row>)
    ensures CountUpTo(t, 0) == 0
  {
    if t != [] {
      CountUpToNone(t[..|t| - 1]);
    }
  }

  lemma {:induction false} CountUpToAll(t: seq<Row>, m: nat)
    requires MaxOrder(t) <= m && 0 !in Orders(t)
    ensures CountUpTo(t, m) == |t|
  {
    if t != [] {
      CountUpToAll(t[..|t| - 1], m);
    }
  }

  lemma {:induction false} CountUpToBounded(t: seq<Row>, m: nat, k: nat)
    requires forall v :: CountOrder(t, v) <= k
    ensures CountUpTo(t, m) <= k * m
  {
    if m == 0 {
      CountUpToNone(t);
    } else {
      CountUpToSplits(t, m);
      CountUpToBounded(t, m - 1, k);
      assert CountOrder(t, m) <= k;
      assert k * m == k * (m - 1) + k;
    }
  }

  /** So a ledger of n records has a largest order of at least n / k. */
  lemma LedgerBound(es: seq<Event>, k: nat)
    requires IsRun(AGENCY, es) && WindowAtMost(es, k)
    ensures var t := After(AGENCY, es).table; |t| <= k * MaxOrder(t)
  {
    var t := After(AGENCY, es).table;
    NoGaps(es);
    forall v ensures CountOrder(t, v) <= k { EachOrderHeldAtMost(es, k, v); }
    CountUpToAll(t, MaxOrder(t));
    CountUpToBounded(t, MaxOrder(t), k);
  }

  // ---------------------------------------------------------------- without overlap: an append-only log

  /** The orders in save order are 1, 2, 3, ... */
  ghost predicate IsLog(t: seq<Row>) {
    forall i | 0 <= i < |t| :: t[i].record.merkelOrder == i + 1
  }

  ghost predicate Serial(s: State) {
    && IsLog(s.table)
    && forall h | h in s.handlers && s.handlers[h].stage.Pending? :: s.handlers[h].stage.order == |s.table| + 1
  }

  lemma {:induction false} LogMax(t: seq<Row>)
    requires IsLog(t)
    ensures MaxOrder(t) == |t|
  {
    if t != [] {
      LogMax(t[..|t| - 1]);
    }
  }

  lemma AtMostOne<T>(a: set<T>, x: T, y: T)
    requires |a| <= 1 && x in a && y in a
    ensures x == y
  {
    Subset({x, y}, a);
  }

  lemma SerialStep(s: State, t: State, h: HandlerId)
    requires Serial(s) && Shape(s, t, h) && |Window(s)| <= 1
    ensures Serial(t)
  {
    LogMax(s.table);
    if t.table != s.table {
      forall g | g in t.handlers && t.handlers[g].stage.Pending? ensures false {
        AtMostOne(Window(s), g, h);
      }
    }
  }

  /** When no two handlers are ever in the window together, the ledger is an append-only log numbered 1 to n. */
  lemma {:induction false} SerialRunsAppend(es: seq<Event>)
    requires IsRun(AGENCY, es) && WindowAtMost(es, 1)
    ensures Serial(After(AGENCY, es))
  {
    if es != [] {
      RunShape(es);
      SerialRunsAppend(es[..|es| - 1]);
      SerialStep(After(AGENCY, es[..|es| - 1]), After(AGENCY, es), es[|es| - 1].h);
    }
  }

  // ---------------------------------------------------------------- exactly when an order can collide

  ghost predicate Distinct(t: seq<Row>) {
    forall i, j | 0 <= i < j < |t| :: t[i].record.merkelOrder != t[j].record.merkelOrder
  }

  /** `es` continues `from` with nothing but saves. */
  predicate OnlySavesSince(from: seq<Event>, es: seq<Event>) {
    from <= es && forall i | |from| <= i < |es| :: es[i].Save?
  }

  /** No way of finishing the saves that are pending once `h` has read gives two records the same order. */
  ghost predicate ReadIsSafe(es: seq<Event>, h: HandlerId) {
    forall all | IsRun(AGENCY, all) && OnlySavesSince(es + [ReadMax(h)], all) :: Distinct(After(AGENCY, all).table)
  }

  /** The table is distinct so far, and only `h` is pending, with an order that is not in it. */
  ghost predicate Solo(s: State, h: HandlerId) {
    && Distinct(s.table)
    && forall g | g in s.handlers && s.handlers[g].stage.Pending? :: g == h && s.handlers[g].stage.order > MaxOrder(s.table)
  }

  lemma StaysDistinct(t: seq<Row>, row: Row)
    requires Distinct(t) && row.record.merkelOrder > MaxOrder(t)
    ensures Distinct(t + [row])
  {
    forall i | 0 <= i < |t| ensures t[i].record.merkelOrder != row.record.merkelOrder {
      MaxAtLeast(t, i);
    }
  }

  lemma SoloStep(s: State, t: State, h: HandlerId)
    requires Solo(s, h) && Shape(s, t, h) && h in s.handlers && s.handlers[h].stage.Pending?
    requires !t.handlers[h].stage.Pending?
    ensures Solo(t, h)
  {
    if t.table != s.table {
      StaysDistinct(s.table, t.table[|s.table|]);
    }
  }

  lemma SaveEnds(s: State, e: Event)
    requires e.Save? && Enabled(s, e)
    ensures e.h in Next(s, e).handlers && !Next(s, e).handlers[e.h].stage.Pending?
  {
  }

  lemma {:induction false} SavesStaySolo(from: seq<Event>, es: seq<Event>, h: HandlerId)
    requires IsRun(AGENCY, es) && OnlySavesSince(from, es) && Solo(After(AGENCY, from), h)
    ensures Solo(After(AGENCY, es), h)
    decreases |es|
  {
    if from != es {
      var front, e := es[..|es| - 1], es[|es| - 1];
      SavesStaySolo(from, front, h);
      RunShape(es);
      SaveEnds(After(AGENCY, front), e);
      SoloStep(After(AGENCY, front), After(AGENCY, es), h);
    }
  }

  lemma ReadsAlone(s: State, h: HandlerId)
    requires Enabled(s, ReadMax(h)) && Window(s) == {} && Distinct(s.table)
    ensures Solo(Next(s, ReadMax(h)), h)
  {
    assert forall g | g in s.handlers && s.handlers[g].stage.Pending? :: g in Window(s);
  }

  lemma EmptyWindowIsSafe(es: seq<Event>, h: HandlerId)
    requires IsRun(AGENCY, es + [ReadMax(h)])
    requires Window(After(AGENCY, es)) == {} && Distinct(After(AGENCY, es).table)
    ensures ReadIsSafe(es, h)
  {
    Extend(AGENCY, es, ReadMax(h));
    ReadsAlone(After(AGENCY, es), h);
    forall all | IsRun(AGENCY, all) && OnlySavesSince(es + [ReadMax(h)], all) ensures Distinct(After(AGENCY, all).table) {
      SavesStaySolo(es + [ReadMax(h)], all, h);
    }
  }

  /** Two handlers that hold the same order and both save leave it in the table twice. */
  lemma BothSave(s: State, g: HandlerId, h: HandlerId)
    requires g != h && g in s.handlers && h in s.handlers && s.handlers[g].stage.Pending?
    requires s.handlers[h].stage == s.handlers[g].stage && s.handlers[g].stage.order <= MAX_INT
    requires HasTransaction(s.handlers[g]) && HasTransaction(s.handlers[h])
    ensures var t := Next(s, Save(g, false));
            Enabled(s, Save(g, false)) && Enabled(t, Save(h, false)) && !Distinct(Next(t, Save(h, false)).table)
  {
    var t := Next(s, Save(g, false));
    var u := Next(t, Save(h, false)).table;
    assert |u| == |s.table| + 2 && u[|s.table|].record.merkelOrder == u[|s.table| + 1].record.merkelOrder;
  }

  lemma {:induction false} OrderIsHeld(t: seq<Row>, v: nat) returns (i: nat)
    requires v in Orders(t)
    ensures i < |t| && t[i].record.merkelOrder == v
  {
    if t[|t| - 1].record.merkelOrder == v {
      i := |t| - 1;
    } else {
      i := OrderIsHeld(t[..|t| - 1], v);
    }
  }

  /** A handler that holds an order which is in the table already stores it a second time. */
  lemma SavesTakenOrder(s: State, g: HandlerId)
    requires g in s.handlers && s.handlers[g].stage.Pending? && HasTransaction(s.handlers[g])
    requires s.handlers[g].stage.order in Orders(s.table) && s.handlers[g].stage.order <= MAX_INT
    ensures Enabled(s, Save(g, false)) && !Distinct(Next(s, Save(g, false)).table)
  {
    var i := OrderIsHeld(s.table, s.handlers[g].stage.order);
    var u := Next(s, Save(g, false)).table;
    assert |u| == |s.table| + 1 && u[i].record.merkelOrder == u[|s.table|].record.merkelOrder;
  }

  /** What the read of `h` leaves of handler `g`, and what it gives to `h`. */
  lemma AfterRead(s: State, g: HandlerId, h: HandlerId)
    requires Enabled(s, ReadMax(h)) && HasTransaction(s.handlers[h]) && g in Window(s)
    ensures var t := Next(s, ReadMax(h));
            && g != h && g in t.handlers && t.handlers[g] == s.handlers[g] && t.table == s.table
            && h in t.handlers && t.handlers[h] == s.handlers[h].(stage := Pending(MaxOrder(s.table) + 1))
  {
  }

  lemma OneSave(read: seq<Event>, g: HandlerId)
    ensures OnlySavesSince(read, read + [Save(g, false)])
  {
  }

  lemma TwoSaves(read: seq<Event>, g: HandlerId, h: HandlerId)
    ensures OnlySavesSince(read, read + [Save(g, false)] + [Save(h, false)])
  {
  }

  /**
   If `g` is in the window already, saves alone can store an order twice: `g` holds the next order, as
   `h` does then, or one that an earlier race has let another save in the meantime.
   */
  lemma OccupiedWindowCollides(es: seq<Event>, h: HandlerId, g: HandlerId) returns (all: seq<Event>)
    requires IsRun(AGENCY, es + [ReadMax(h)])
    requires h in After(AGENCY, es).handlers && HasTransaction(After(AGENCY, es).handlers[h])
    requires MaxOrder(After(AGENCY, es).table) < MAX_INT && g in Window(After(AGENCY, es))
    ensures IsRun(AGENCY, all) && OnlySavesSince(es + [ReadMax(h)], all) && !Distinct(After(AGENCY, all).table)
  {
    var s, read := After(AGENCY, es), es + [ReadMax(h)];
    Extend(AGENCY, es, ReadMax(h));
    NoGaps(es);
    AlwaysWellformed(es);
    assert Suits(s.handlers[g]);
    AfterRead(s, g, h);
    if s.handlers[g].stage.order <= MaxOrder(s.table) {
      SavesTakenOrder(Next(s, ReadMax(h)), g);
      all := read + [Save(g, false)];
      Extend(AGENCY, read, Save(g, false));
      OneSave(read, g);
    } else {
      BothSave(Next(s, ReadMax(h)), g, h);
      all := read + [Save(g, false)] + [Save(h, false)];
      Extend(AGENCY, read, Save(g, false));
      Extend(AGENCY, read + [Save(g, false)], Save(h, false));
      TwoSaves(read, g, h);
    }
  }

  lemma RepeatsStay(es: seq<Event>, h: HandlerId)
    requires IsRun(AGENCY, es + [ReadMax(h)]) && !Distinct(After(AGENCY, es).table)
    ensures !ReadIsSafe(es, h)
  {
    Extend(AGENCY, es, ReadMax(h));
    assert After(AGENCY, es + [ReadMax(h)]).table == After(AGENCY, es).table;
    assert OnlySavesSince(es + [ReadMax(h)], es + [ReadMax(h)]);
  }

  /**
   After any history, races and all, reading the maximum is safe exactly when no other handler is between
   its read and its save, and no order has been stored twice before.
   */
  lemma ReadIsSafeExactlyWhenWindowEmpty(es: seq<Event>, h: HandlerId)
    requires IsRun(AGENCY, es + [ReadMax(h)])
    requires h in After(AGENCY, es).handlers && HasTransaction(After(AGENCY, es).handlers[h])
    requires MaxOrder(After(AGENCY, es).table) < MAX_INT
    ensures ReadIsSafe(es, h) <==> Distinct(After(AGENCY, es).table) && Window(After(AGENCY, es)) == {}
  {
    if !Distinct(After(AGENCY, es).table) {
      RepeatsStay(es, h);
    } else if Window(After(AGENCY, es)) == {} {
      EmptyWindowIsSafe(es, h);
    } else {
      var g :| g in Window(After(AGENCY, es));
      var all := OccupiedWindowCollides(es, h, g);
    }
  }

  /** Two messages from the empty table: the first is read and not yet saved when the second arrives at its read. */
  ghost function RaceState(a: string, m: Message, b: string, n: Message, i: nat): State {
    var first, second := Handler(a, Parsed(m), Reading), Handler(b, Parsed(n), Reading);
    match i
    case 0 => AGENCY.init
    case 1 => State([], map[0 := first])
    case 2 => State([], map[0 := first, 1 := second])
    case _ => State([], map[0 := first.(stage := Pending(1)), 1 := second])
  }

  predicate Recordable(m: Message) { Dispatch(m).Credit? && m.transaction.Some? }

  lemma RaceLinks(a: string, m: Message, b: string, n: Message)
    requires Recordable(m) && Recordable(n)
    ensures var s := i => RaceState(a, m, b, n, i);
            && Enabled(s(0), Receive(0, a, Parsed(m))) && Next(s(0), Receive(0, a, Parsed(m))) == s(1)
            && Enabled(s(1), Receive(1, b, Parsed(n))) && Next(s(1), Receive(1, b, Parsed(n))) == s(2)
            && Enabled(s(2), ReadMax(0)) && Next(s(2), ReadMax(0)) == s(3) && Enabled(s(3), ReadMax(1))
  {
  }

  lemma RaceWindows(a: string, m: Message, b: string, n: Message, i: nat)
    requires i <= 3
    ensures Window(RaceState(a, m, b, n, i)) == if i == 3 then {0} else {}
  {
  }

  /** `es` is a run that ends in `s` and has had at most one handler in the window. */
  ghost predicate Calm(es: seq<Event>, s: State) {
    IsRun(AGENCY, es) && After(AGENCY, es) == s && WindowAtMost(es, 1)
  }

  lemma StaysCalm(es: seq<Event>, s: State, e: Event, t: State) returns (es': seq<Event>)
    requires Calm(es, s) && Enabled(s, e) && Next(s, e) == t && |Window(t)| <= 1
    ensures Calm(es', t)
  {
    es' := es + [e];
    Extend(AGENCY, es, e);
    assert es'[..|es|] == es;
  }

  /** From the empty table any two started transactions can race: after the first read the second is unsafe. */
  lemma AnyTwoMessagesCanCollide(a: string, m: Message, b: string, n: Message) returns (es: seq<Event>)
    requires Recordable(m) && Recordable(n)
    ensures IsRun(AGENCY, es + [ReadMax(1)]) && WindowAtMost(es, 1)
    ensures After(AGENCY, es) == RaceState(a, m, b, n, 3) && !ReadIsSafe(es, 1)
  {
    RaceLinks(a, m, b, n);
    RaceWindows(a, m, b, n, 0);
    RaceWindows(a, m, b, n, 1);
    RaceWindows(a, m, b, n, 2);
    RaceWindows(a, m, b, n, 3);
    es := StaysCalm([], RaceState(a, m, b, n, 0), Receive(0, a, Parsed(m)), RaceState(a, m, b, n, 1));
    es := StaysCalm(es, RaceState(a, m, b, n, 1), Receive(1, b, Parsed(n)), RaceState(a, m, b, n, 2));
    es := StaysCalm(es, RaceState(a, m, b, n, 2), ReadMax(0), RaceState(a, m, b, n, 3));
    Extend(AGENCY, es, ReadMax(1));
    ReadIsSafeExactlyWhenWindowEmpty(es, 1);
  }
}
