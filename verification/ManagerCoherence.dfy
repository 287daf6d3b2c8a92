/**
 When the cache knows every running agent.  The cache entry is asked to live one second longer
 than the timer that stops the agent; this module proves that this second is exactly what the
 delays around setting and firing the timer may use up.
 */
module ManagerCoherence {
  import opened Runs
  import opened Manager

  predicate IsStarting(u: Up, id: AgentId) { u.id == id && u.owes }

  ghost predicate Starting(s: State, id: AgentId) {
    exists c | c in s.ups :: IsStarting(s.ups[c], id)
  }

  ghost predicate Stopping(s: State, id: AgentId) {
    exists c | c in s.downs :: s.downs[c] == Deleted(id)
  }

  /** If the agent runs it is in the cache, or a spin-up is about to put it there, or a spin-down is about to stop it. */
  ghost predicate Coherent(s: State, id: AgentId) {
    id in s.running ==> Live(s, id) || Starting(s, id) || Stopping(s, id)
  }

  // ---------------------------------------------------------------- the assumptions

  function WroteAt(u: Up): Option<nat> {
    match u.stage
    case Added(wrote) => Some(wrote)
    case Found(first) => first
    case Cached(wrote) => Some(wrote)
    case _ => None
  }

  /** What may go wrong with an agent while it runs. */
  datatype Faults = Faults(
    unwritten: bool, // a spin-up throws when it has started the container and not yet written the cache
    abandoned: bool, // a spin-up throws when it has written an entry that will expire
    stopFails: bool, // a spin-down throws that a timer began, or that has emptied the cache
    forgets: bool)   // the store does not keep an entry with a negative TTL for ever

  const NO_FAULTS := Faults(false, false, false, false)

  /** Event `e` shows agent `id` no other faults than these; nothing that happens while it does not run is one. */
  predicate Disciplined(s: State, e: Event, id: AgentId, faults: Faults) {
    id in s.running ==>
      match e
      case Add(c, kept) => c in s.ups && s.ups[c].id == id && !Timed(s.ups[c].ttl) ==> kept == Never || faults.forgets
      case Write(c, kept) => c in s.ups && s.ups[c].id == id && !Timed(s.ups[c].ttl) ==> kept == Never || faults.forgets
      case Abort(c) =>
        c in s.ups && s.ups[c].id == id ==>
          && (s.ups[c].owes ==> faults.unwritten)
          && (Timed(s.ups[c].ttl) && WroteAt(s.ups[c]).Some? ==> faults.abandoned)
      case GiveUp(c) =>
        c in s.downs && s.downs[c].id == id && (s.downs[c].Deleted? || s.downs[c].due.Some?) ==> faults.stopFails
      case _ => true
  }

  /** The agent's timers are set at most `gap` after the cache was first written, and empty it at most `late` after they are due. */
  ghost predicate OnTime(s: State, id: AgentId, gap: nat, late: nat) {
    && (forall t | t in s.timers && t.id == id :: s.now <= t.due + late)
    && (forall c | c in s.downs && s.downs[c].Ordered? && s.downs[c].id == id && s.downs[c].due.Some? ::
          s.now <= s.downs[c].due.value + late)
    && (forall c | c in s.ups && s.ups[c].id == id && WroteAt(s.ups[c]).Some? :: s.now <= WroteAt(s.ups[c]).value + gap)
  }

  /** All along the run agent `id` is on time and shows no other faults; other agents may do as they like. */
  ghost predicate Timely(es: seq<Event>, id: AgentId, gap: nat, late: nat, faults: Faults) {
    && OnTime(After(LIFE, es), id, gap, late)
    && (es != [] ==>
          && Timely(es[..|es| - 1], id, gap, late, faults)
          && Disciplined(After(LIFE, es[..|es| - 1]), es[|es| - 1], id, faults))
  }

  // ---------------------------------------------------------------- coherence

  /** What will take agent `id` down before a cache entry expires. */
  datatype Guard = ByTimer(t: Timer) | ByDown(c: CallId) | ByUp(c: CallId)

  ghost predicate Guards(s: State, g: Guard, id: AgentId, deadline: int, gap: nat) {
    match g
    case ByTimer(t) => t in s.timers && t.id == id && t.due < deadline
    case ByDown(c) =>
      c in s.downs && s.downs[c].Ordered? && s.downs[c].id == id
      && s.downs[c].due.Some? && s.downs[c].due.value < deadline
    case ByUp(c) =>
      c in s.ups && s.ups[c].id == id && Timed(s.ups[c].ttl)
      && WroteAt(s.ups[c]).Some? && WroteAt(s.ups[c]).value + gap + Delay(s.ups[c].ttl) < deadline
  }

  ghost predicate Secured(s: State, id: AgentId, gap: nat, late: nat) {
    || Starting(s, id)
    || Stopping(s, id)
    || (id in s.cache && (s.cache[id].Never? || Guarded(s, id, s.cache[id].time - late, gap)))
  }

  ghost predicate Guarded(s: State, id: AgentId, deadline: int, gap: nat) {
    exists g :: Guards(s, g, id, deadline, gap)
  }

  lemma SecuredIsLive(s: State, id: AgentId, gap: nat, late: nat)
    requires Secured(s, id, gap, late) && OnTime(s, id, gap, late)
    ensures Live(s, id) || Starting(s, id) || Stopping(s, id)
  {
  }

  /** The same guard, after event `e`: arming turns a spin-up into a timer, firing a timer into a spin-down. */
  ghost function Passed(s: State, e: Event, g: Guard): Guard {
    match g
    case ByTimer(t) => if e.Fire? && e.timer == t then ByDown(e.c) else g
    case ByDown(_) => g
    case ByUp(c) =>
      if e == Arm(c) && c in s.ups && Timed(s.ups[c].ttl)
      then ByTimer(Timer(s.ups[c].id, s.now + Delay(s.ups[c].ttl))) else g
  }

  lemma TimerGuardStep(s: State, e: Event, t: Timer, id: AgentId, deadline: int, gap: nat)
    requires Enabled(s, e) && Guards(s, ByTimer(t), id, deadline, gap)
    ensures Guards(Next(s, e), Passed(s, e, ByTimer(t)), id, deadline, gap)
  {
  }

  lemma DownGuardStep(s: State, e: Event, c: CallId, id: AgentId, deadline: int, gap: nat)
    requires id in s.running && Enabled(s, e) && Disciplined(s, e, id, NO_FAULTS) && Guards(s, ByDown(c), id, deadline, gap)
    requires e.Delete? ==> s.downs[e.c].id != id
    ensures Guards(Next(s, e), ByDown(c), id, deadline, gap)
  {
  }

  /** A step of another call, or of the clock, leaves spin-up `c` alone. */
  lemma OtherUp(s: State, e: Event, c: CallId)
    requires c in s.ups && (e.Tick? || e.c != c)
    ensures c in Next(s, e).ups && Next(s, e).ups[c] == s.ups[c]
  {
  }

  lemma OwnUpGuardStep(s: State, e: Event, c: CallId, id: AgentId, deadline: int, gap: nat, late: nat)
    requires id in s.running && Enabled(s, e) && Disciplined(s, e, id, NO_FAULTS) && OnTime(s, id, gap, late)
    requires Guards(s, ByUp(c), id, deadline, gap) && !e.Tick? && e.c == c
    requires e.ReadBack? ==> Live(s, id)
    ensures Guards(Next(s, e), Passed(s, e, ByUp(c)), id, deadline, gap)
  {
  }

  lemma UpGuardStep(s: State, e: Event, c: CallId, id: AgentId, deadline: int, gap: nat, late: nat)
    requires id in s.running && Enabled(s, e) && Disciplined(s, e, id, NO_FAULTS) && OnTime(s, id, gap, late)
    requires Guards(s, ByUp(c), id, deadline, gap)
    requires e.ReadBack? && s.ups[e.c].id == id ==> Live(s, id)
    ensures Guards(Next(s, e), Passed(s, e, ByUp(c)), id, deadline, gap)
  {
    if e.Tick? || e.c != c {
      OtherUp(s, e, c);
    } else {
      OwnUpGuardStep(s, e, c, id, deadline, gap, late);
    }
  }

  /** A guard is passed on until the cache entry is deleted. */
  lemma GuardStep(s: State, e: Event, g: Guard, id: AgentId, deadline: int, gap: nat, late: nat)
    requires id in s.running && Enabled(s, e) && Disciplined(s, e, id, NO_FAULTS) && OnTime(s, id, gap, late)
    requires Guards(s, g, id, deadline, gap)
    requires e.Delete? ==> s.downs[e.c].id != id
    requires e.ReadBack? && s.ups[e.c].id == id ==> Live(s, id)
    ensures Guarded(Next(s, e), id, deadline, gap)
  {
    match g
    case ByTimer(t) => TimerGuardStep(s, e, t, id, deadline, gap);
    case ByDown(c) => DownGuardStep(s, e, c, id, deadline, gap);
    case ByUp(c) => UpGuardStep(s, e, c, id, deadline, gap, late);
  }

  /** The first write of a spin-up lies in the past, and who owes a write has not made one. */
  predicate PastOf(u: Up, now: nat) {
    && (WroteAt(u).Some? ==> WroteAt(u).value <= now)
    && (u.owes ==> !u.stage.Begun? && WroteAt(u).None?)
  }

  ghost predicate Past(s: State) {
    forall c | c in s.ups :: PastOf(s.ups[c], s.now)
  }

  lemma PastStepOf(s: State, e: Event, c: CallId)
    requires c in Next(s, e).ups && (c in s.ups ==> PastOf(s.ups[c], s.now))
    ensures PastOf(Next(s, e).ups[c], Next(s, e).now)
  {
  }

  lemma PastStep(s: State, e: Event)
    requires Past(s)
    ensures Past(Next(s, e))
  {
    forall c | c in Next(s, e).ups ensures PastOf(Next(s, e).ups[c], Next(s, e).now) { PastStepOf(s, e, c); }
  }

  lemma {:induction false} AlwaysPast(es: seq<Event>)
    ensures Past(After(LIFE, es))
  {
    if es != [] {
      AlwaysPast(es[..|es| - 1]);
      PastStep(After(LIFE, es[..|es| - 1]), es[|es| - 1]);
    }
  }

  predicate Writes(e: Event) { e.Add? || e.Write? }

  /** A newly written entry is guarded by its writer, which has a second in hand. */
  lemma WriterGuards(s: State, e: Event, id: AgentId, gap: nat, late: nat)
    requires Enabled(s, e) && Disciplined(s, e, id, NO_FAULTS) && Past(s) && gap + late < 1000
    requires Writes(e) && s.ups[e.c].id == id && id in s.running
    ensures var t := Next(s, e);
            id in t.cache && (t.cache[id].At? ==> Guards(t, ByUp(e.c), id, t.cache[id].time - late, gap))
  {
  }

  lemma ExemptStep(s: State, e: Event, id: AgentId)
    requires Enabled(s, e) && Disciplined(s, e, id, NO_FAULTS) && Past(s) && (Starting(s, id) || Stopping(s, id))
    requires Writes(e) ==> s.ups[e.c].id != id
    requires id in Next(s, e).running
    ensures Starting(Next(s, e), id) || Stopping(Next(s, e), id)
  {
    var t := Next(s, e);
    if Starting(s, id) {
      var c :| c in s.ups && IsStarting(s.ups[c], id);
      assert c in t.ups && IsStarting(t.ups[c], id);
    } else {
      var c :| c in s.downs && s.downs[c] == Deleted(id);
      assert c in t.downs && t.downs[c] == Deleted(id);
    }
  }

  /** A step that starts the agent, deletes its entry or rewrites it. */
  predicate Touches(s: State, e: Event, id: AgentId) {
    match e
    case Start(c, _) => c in s.ups && s.ups[c].id == id && id !in s.running
    case Delete(c) => c in s.downs && s.downs[c].id == id
    case Add(c, _) => c in s.ups && s.ups[c].id == id
    case Write(c, _) => c in s.ups && s.ups[c].id == id
    case _ => false
  }

  lemma Untouched(s: State, e: Event, id: AgentId)
    requires Enabled(s, e) && !Touches(s, e, id)
    ensures var t := Next(s, e);
            && (id in t.running ==> id in s.running)
            && (id in s.cache <==> id in t.cache) && (id in s.cache ==> t.cache[id] == s.cache[id])
  {
  }

  lemma SecuredStep(s: State, e: Event, id: AgentId, gap: nat, late: nat)
    requires Enabled(s, e) && Disciplined(s, e, id, NO_FAULTS) && OnTime(s, id, gap, late) && Past(s) && gap + late < 1000
    requires id in s.running ==> Secured(s, id, gap, late)
    requires id in Next(s, e).running
    ensures Secured(Next(s, e), id, gap, late)
  {
    var t := Next(s, e);
    if Touches(s, e, id) {
      match e
      case Start(c, _) => assert IsStarting(t.ups[c], id);
      case Delete(c) => assert t.downs[c] == Deleted(id);
      case _ => WriterGuards(s, e, id, gap, late);
    } else {
      Untouched(s, e, id);
      if Starting(s, id) || Stopping(s, id) {
        ExemptStep(s, e, id);
      } else if s.cache[id].At? {
        SecuredIsLive(s, id, gap, late);
        var g :| Guards(s, g, id, s.cache[id].time - late, gap);
        GuardStep(s, e, g, id, s.cache[id].time - late, gap, late);
      }
    }
  }

  /** Every running agent of a timely run is secured until it stops. */
  lemma {:induction false} AlwaysSecured(es: seq<Event>, id: AgentId, gap: nat, late: nat)
    requires IsRun(LIFE, es) && Timely(es, id, gap, late, NO_FAULTS) && gap + late < 1000
    requires id in After(LIFE, es).running
    ensures Secured(After(LIFE, es), id, gap, late)
  {
    var front := es[..|es| - 1];
    if id in After(LIFE, front).running {
      AlwaysSecured(front, id, gap, late);
    }
    AlwaysPast(front);
    SecuredStep(After(LIFE, front), es[|es| - 1], id, gap, late);
  }

  /** Whatever other agents do, an agent without delays of a second and without faults is known while it runs. */
  lemma TimelyRunsAreCoherent(es: seq<Event>, id: AgentId, gap: nat, late: nat)
    requires IsRun(LIFE, es) && Timely(es, id, gap, late, NO_FAULTS) && gap + late < 1000
    ensures Coherent(After(LIFE, es), id)
  {
    if id in After(LIFE, es).running {
      AlwaysSecured(es, id, gap, late);
      SecuredIsLive(After(LIFE, es), id, gap, late);
    }
  }

  // ---------------------------------------------------------------- exactly one second, and no fault

  /** A timely step from `s` to `t`. */
  ghost predicate Link(s: State, e: Event, t: State, id: AgentId, gap: nat, late: nat, faults: Faults) {
    Enabled(s, e) && Next(s, e) == t && OnTime(t, id, gap, late) && Disciplined(s, e, id, faults)
  }

  /** `es` is a timely run that ends in `s`. */
  ghost predicate Leads(es: seq<Event>, s: State, id: AgentId, gap: nat, late: nat, faults: Faults) {
    IsRun(LIFE, es) && After(LIFE, es) == s && Timely(es, id, gap, late, faults)
  }

  /** A timely run, continued by a timely step. */
  lemma Continue(es: seq<Event>, s: State, e: Event, t: State, id: AgentId, gap: nat, late: nat, faults: Faults)
    returns (es': seq<Event>)
    requires Leads(es, s, id, gap, late, faults) && Link(s, e, t, id, gap, late, faults)
    ensures es' == es + [e] && es'[..|es|] == es && Leads(es', t, id, gap, late, faults)
  {
    es' := es + [e];
    Extend(LIFE, es, e);
    assert es'[..|es|] == es;
  }

  /** More time and more faults only allow more. */
  lemma {:induction false} TimelyAllowsMore(es: seq<Event>, id: AgentId, gap: nat, late: nat, less: Faults, more: Faults)
    requires Timely(es, id, 0, 0, less) && (less == NO_FAULTS || less == more)
    ensures Timely(es, id, gap, late, more)
  {
    if es != [] {
      TimelyAllowsMore(es[..|es| - 1], id, gap, late, less, more);
    }
  }

  /** A spin-up with a TTL of one second whose timer is set `g` late, and waits for its entry to expire. */
  ghost function SlowState(id: AgentId, g: nat, i: nat): State {
    var u := Up(id, Finite(1000), Begun, false);
    var none: map<CallId, Down> := map[];
    match i
    case 0 => LIFE.init
    case 1 => State(0, {}, map[], multiset{}, map[0 := u], none)
    case 2 => State(0, {id}, map[], multiset{}, map[0 := u.(stage := Started, owes := true)], none)
    case 3 => State(0, {id}, map[id := At(2000)], multiset{}, map[0 := u.(stage := Cached(0))], none)
    case 4 => State(g, {id}, map[id := At(2000)], multiset{}, map[0 := u.(stage := Cached(0))], none)
    case 5 => State(g, {id}, map[id := At(2000)], multiset{Timer(id, g + 1000)}, map[], none)
    case _ => State(2000, {id}, map[id := At(2000)], multiset{Timer(id, g + 1000)}, map[], none)
  }

  lemma SlowLinks1(id: AgentId, g: nat, gap: nat, late: nat, faults: Faults)
    requires g <= gap
    ensures Link(SlowState(id, g, 0), BeginUp(0, id, Finite(1000)), SlowState(id, g, 1), id, gap, late, faults)
    ensures Link(SlowState(id, g, 1), Start(0, Answered), SlowState(id, g, 2), id, gap, late, faults)
    ensures Link(SlowState(id, g, 2), Write(0, At(2000)), SlowState(id, g, 3), id, gap, late, faults)
  {
  }

  lemma SlowLinks2(id: AgentId, g: nat, gap: nat, late: nat, faults: Faults)
    requires g <= gap
    ensures Link(SlowState(id, g, 3), Tick(g), SlowState(id, g, 4), id, gap, late, faults)
  {
  }

  lemma SlowLinks3(id: AgentId, g: nat, gap: nat, late: nat, faults: Faults)
    ensures Link(SlowState(id, g, 4), Arm(0), SlowState(id, g, 5), id, gap, late, faults)
  {
    assert SlowState(id, g, 4).ups - {0} == map[];
  }

  lemma SlowStart(id: AgentId, g: nat, gap: nat, late: nat, faults: Faults) returns (es: seq<Event>)
    requires g <= gap
    ensures Leads(es, SlowState(id, g, 3), id, gap, late, faults)
  {
    SlowLinks1(id, g, gap, late, faults);
    es := Continue([], SlowState(id, g, 0), BeginUp(0, id, Finite(1000)), SlowState(id, g, 1), id, gap, late, faults);
    es := Continue(es, SlowState(id, g, 1), Start(0, Answered), SlowState(id, g, 2), id, gap, late, faults);
    es := Continue(es, SlowState(id, g, 2), Write(0, At(2000)), SlowState(id, g, 3), id, gap, late, faults);
  }

  lemma SlowArm(id: AgentId, g: nat, gap: nat, late: nat, faults: Faults) returns (es: seq<Event>)
    requires g <= gap
    ensures Leads(es, SlowState(id, g, 5), id, gap, late, faults)
  {
    es := SlowStart(id, g, gap, late, faults);
    SlowLinks2(id, g, gap, late, faults);
    es := Continue(es, SlowState(id, g, 3), Tick(g), SlowState(id, g, 4), id, gap, late, faults);
    SlowLinks3(id, g, gap, late, faults);
    es := Continue(es, SlowState(id, g, 4), Arm(0), SlowState(id, g, 5), id, gap, late, faults);
  }

  /** With more than a second to lose, a timely run reaches a running agent that the cache has forgotten. */
  lemma SlowRun(id: AgentId, gap: nat, late: nat, faults: Faults) returns (es: seq<Event>)
    requires gap + late >= 1000
    ensures IsRun(LIFE, es) && Timely(es, id, gap, late, faults) && !Coherent(After(LIFE, es), id)
  {
    var g := if gap < 1000 then gap else 1000;
    es := SlowArm(id, g, gap, late, faults);
    assert Link(SlowState(id, g, 5), Tick(2000 - g), SlowState(id, g, 6), id, gap, late, faults);
    es := Continue(es, SlowState(id, g, 5), Tick(2000 - g), SlowState(id, g, 6), id, gap, late, faults);
    Forgotten(SlowState(id, g, 6), id);
  }

  lemma Forgotten(s: State, id: AgentId)
    requires id in s.running && !Live(s, id) && s.downs == map[] && (forall c | c in s.ups :: !s.ups[c].owes)
    ensures !Coherent(s, id)
  {
  }

  /** The spin-up with a TTL of one second again: its timer fires on time, and the spin-down throws. */
  ghost function StopFailsState(id: AgentId, i: nat): State {
    var armed := SlowState(id, 0, 5);
    match i
    case 0 => armed
    case 1 => armed.(now := 1000)
    case 2 => armed.(now := 1000, timers := multiset{}, downs := map[0 := Ordered(id, Some(1000))])
    case 3 => armed.(now := 1000, timers := multiset{})
    case _ => armed.(now := 2000, timers := multiset{})
  }

  lemma StopFailsLinks1(id: AgentId, gap: nat, late: nat, faults: Faults)
    ensures Link(StopFailsState(id, 0), Tick(1000), StopFailsState(id, 1), id, gap, late, faults)
    ensures Link(StopFailsState(id, 1), Fire(0, Timer(id, 1000)), StopFailsState(id, 2), id, gap, late, faults)
  {
    assert StopFailsState(id, 1).timers - multiset{Timer(id, 1000)} == multiset{};
  }

  lemma StopFailsLinks2(id: AgentId, gap: nat, late: nat, faults: Faults)
    requires faults.stopFails
    ensures Link(StopFailsState(id, 2), GiveUp(0), StopFailsState(id, 3), id, gap, late, faults)
    ensures Link(StopFailsState(id, 3), Tick(1000), StopFailsState(id, 4), id, gap, late, faults)
  {
    assert StopFailsState(id, 2).downs - {0} == map[];
  }

  lemma StopFailsFired(id: AgentId, gap: nat, late: nat, faults: Faults) returns (es: seq<Event>)
    ensures Leads(es, StopFailsState(id, 2), id, gap, late, faults)
  {
    es := SlowArm(id, 0, gap, late, faults);
    StopFailsLinks1(id, gap, late, faults);
    es := Continue(es, StopFailsState(id, 0), Tick(1000), StopFailsState(id, 1), id, gap, late, faults);
    es := Continue(es, StopFailsState(id, 1), Fire(0, Timer(id, 1000)), StopFailsState(id, 2), id, gap, late, faults);
  }

  lemma FailedStopBreaksCoherence(id: AgentId, gap: nat, late: nat, faults: Faults) returns (es: seq<Event>)
    requires faults.stopFails
    ensures IsRun(LIFE, es) && Timely(es, id, gap, late, faults) && !Coherent(After(LIFE, es), id)
  {
    es := StopFailsFired(id, gap, late, faults);
    StopFailsLinks2(id, gap, late, faults);
    es := Continue(es, StopFailsState(id, 2), GiveUp(0), StopFailsState(id, 3), id, gap, late, faults);
    es := Continue(es, StopFailsState(id, 3), Tick(1000), StopFailsState(id, 4), id, gap, late, faults);
    Forgotten(StopFailsState(id, 4), id);
  }

  /** A spin-up for ever that throws when it has started its agent and not yet written the cache. */
  ghost function UnwrittenState(id: AgentId, i: nat): State {
    var u := Up(id, Infinite, Begun, false);
    match i
    case 0 => LIFE.init
    case 1 => LIFE.init.(ups := map[0 := u])
    case 2 => LIFE.init.(running := {id}, ups := map[0 := u.(stage := Started, owes := true)])
    case _ => LIFE.init.(running := {id})
  }

  lemma UnwrittenLinks(id: AgentId, gap: nat, late: nat, faults: Faults)
    requires faults.unwritten
    ensures Link(UnwrittenState(id, 0), BeginUp(0, id, Infinite), UnwrittenState(id, 1), id, gap, late, faults)
    ensures Link(UnwrittenState(id, 1), Start(0, Answered), UnwrittenState(id, 2), id, gap, late, faults)
    ensures Link(UnwrittenState(id, 2), Abort(0), UnwrittenState(id, 3), id, gap, late, faults)
  {
    assert UnwrittenState(id, 2).ups - {0} == map[];
  }

  lemma UnwrittenStartBreaksCoherence(id: AgentId, gap: nat, late: nat, faults: Faults) returns (es: seq<Event>)
    requires faults.unwritten
    ensures IsRun(LIFE, es) && Timely(es, id, gap, late, faults) && !Coherent(After(LIFE, es), id)
  {
    UnwrittenLinks(id, gap, late, faults);
    es := Continue([], UnwrittenState(id, 0), BeginUp(0, id, Infinite), UnwrittenState(id, 1), id, gap, late, faults);
    es := Continue(es, UnwrittenState(id, 1), Start(0, Answered), UnwrittenState(id, 2), id, gap, late, faults);
    es := Continue(es, UnwrittenState(id, 2), Abort(0), UnwrittenState(id, 3), id, gap, late, faults);
    Forgotten(UnwrittenState(id, 3), id);
  }

  /** A spin-up with a negative TTL, whose entry the store drops at once. */
  ghost function NegativeState(id: AgentId, i: nat): State {
    var u := Up(id, Finite(-1), Begun, false);
    match i
    case 0 => LIFE.init
    case 1 => LIFE.init.(ups := map[0 := u])
    case 2 => LIFE.init.(running := {id}, ups := map[0 := u.(stage := Started, owes := true)])
    case _ => LIFE.init.(running := {id}, cache := map[id := At(0)], ups := map[0 := u.(stage := Cached(0))])
  }

  lemma NegativeLinks(id: AgentId, gap: nat, late: nat, faults: Faults)
    requires faults.forgets
    ensures Link(NegativeState(id, 0), BeginUp(0, id, Finite(-1)), NegativeState(id, 1), id, gap, late, faults)
    ensures Link(NegativeState(id, 1), Start(0, Answered), NegativeState(id, 2), id, gap, late, faults)
    ensures Link(NegativeState(id, 2), Write(0, At(0)), NegativeState(id, 3), id, gap, late, faults)
  {
  }

  /** A store that drops an entry with a negative TTL forgets an agent that no timer will stop. */
  lemma NegativeTtlBreaksCoherence(id: AgentId, gap: nat, late: nat, faults: Faults) returns (es: seq<Event>)
    requires faults.forgets
    ensures IsRun(LIFE, es) && Timely(es, id, gap, late, faults) && !Coherent(After(LIFE, es), id)
  {
    NegativeLinks(id, gap, late, faults);
    es := Continue([], NegativeState(id, 0), BeginUp(0, id, Finite(-1)), NegativeState(id, 1), id, gap, late, faults);
    es := Continue(es, NegativeState(id, 1), Start(0, Answered), NegativeState(id, 2), id, gap, late, faults);
    es := Continue(es, NegativeState(id, 2), Write(0, At(0)), NegativeState(id, 3), id, gap, late, faults);
    Forgotten(NegativeState(id, 3), id);
  }

  // ---------------------------------------------------------------- a failed connection

  /**
   Two spin-ups of an agent overlap: 1 starts it, 2 finds it running and not yet cached.  1 writes its
   entry and sets its timer; 2 adds its own, shorter entry, finds it, and fails to connect.
   */
  ghost function OverlapState(id: AgentId, short: nat, long: nat, i: nat): State {
    var u, v := Up(id, Finite(long), Begun, false), Up(id, Finite(short), Begun, false);
    var none: map<CallId, Down> := map[];
    var started := u.(stage := Started, owes := true);
    var armed := State(0, {id}, map[id := At(long + 1000)], multiset{Timer(id, long)}, map[2 := v.(stage := Missing)], none);
    match i
    case 0 => LIFE.init
    case 1 => State(0, {}, map[], multiset{}, map[1 := u], none)
    case 2 => State(0, {id}, map[], multiset{}, map[1 := started], none)
    case 3 => State(0, {id}, map[], multiset{}, map[1 := started, 2 := v], none)
    case 4 => State(0, {id}, map[], multiset{}, map[1 := started, 2 := v.(stage := Refused)], none)
    case 5 => State(0, {id}, map[], multiset{}, map[1 := started, 2 := v.(stage := Missing)], none)
    case 6 => State(0, {id}, map[id := At(long + 1000)], multiset{},
                    map[1 := u.(stage := Cached(0)), 2 := v.(stage := Missing)], none)
    case 7 => armed
    case 8 => armed.(cache := map[id := At(short + 1000)], ups := map[2 := v.(stage := Added(0))])
    case 9 => armed.(cache := map[id := At(short + 1000)], ups := map[2 := v.(stage := Found(Some(0)))])
    case 10 => armed.(cache := map[id := At(short + 1000)], ups := map[])
    case _ => armed.(cache := map[id := At(short + 1000)], ups := map[], now := short + 1000)
  }

  function OverlapEvent(id: AgentId, short: nat, long: nat, i: nat): Event {
    match i
    case 0 => BeginUp(1, id, Finite(long))
    case 1 => Start(1, Answered)
    case 2 => BeginUp(2, id, Finite(short))
    case 3 => Start(2, Answered)
    case 4 => Look(2)
    case 5 => Write(1, At(long + 1000))
    case 6 => Arm(1)
    case 7 => Add(2, At(short + 1000))
    case 8 => ReadBack(2)
    case 9 => Abort(2)
    case _ => Tick(short + 1000)
  }

  /** Step `i` of the overlap is on time without any delay. */
  ghost predicate OverlapLink(id: AgentId, short: nat, long: nat, i: nat, faults: Faults) {
    Link(OverlapState(id, short, long, i), OverlapEvent(id, short, long, i), OverlapState(id, short, long, i + 1),
         id, 0, 0, faults)
  }

  lemma OverlapStarts(id: AgentId, short: nat, long: nat)
    requires 0 < short && short + 1000 <= long <= MAX_DELAY
    ensures OverlapLink(id, short, long, 0, NO_FAULTS)
    ensures OverlapLink(id, short, long, 1, NO_FAULTS)
    ensures OverlapLink(id, short, long, 2, NO_FAULTS)
  {
  }

  lemma OverlapMisses(id: AgentId, short: nat, long: nat)
    requires 0 < short && short + 1000 <= long <= MAX_DELAY
    ensures OverlapLink(id, short, long, 3, NO_FAULTS)
    ensures OverlapLink(id, short, long, 4, NO_FAULTS)
  {
  }

  lemma OverlapAdds(id: AgentId, short: nat, long: nat)
    requires 0 < short && short + 1000 <= long <= MAX_DELAY
    ensures OverlapLink(id, short, long, 7, NO_FAULTS)
  {
  }

  lemma OverlapFinds(id: AgentId, short: nat, long: nat)
    requires 0 < short && short + 1000 <= long <= MAX_DELAY
    ensures OverlapLink(id, short, long, 8, NO_FAULTS)
  {
  }

  lemma OverlapWrites(id: AgentId, short: nat, long: nat)
    requires 0 < short && short + 1000 <= long <= MAX_DELAY
    ensures OverlapLink(id, short, long, 5, NO_FAULTS)
  {
  }

  lemma OverlapArms(id: AgentId, short: nat, long: nat)
    requires 0 < short && short + 1000 <= long <= MAX_DELAY
    ensures OverlapLink(id, short, long, 6, NO_FAULTS)
  {
    assert OverlapState(id, short, long, 6).ups - {1} == OverlapState(id, short, long, 7).ups;
  }

  lemma OverlapLinks3(id: AgentId, short: nat, long: nat, faults: Faults)
    requires 0 < short && short + 1000 <= long <= MAX_DELAY && faults.abandoned
    ensures OverlapLink(id, short, long, 9, faults)
    ensures OverlapLink(id, short, long, 10, faults)
  {
    assert OverlapState(id, short, long, 9).ups - {2} == map[];
  }

  lemma OverlapLinks(id: AgentId, short: nat, long: nat, i: nat)
    requires 0 < short && short + 1000 <= long <= MAX_DELAY && i < 9
    ensures OverlapLink(id, short, long, i, NO_FAULTS)
  {
    match i
    case 3 => OverlapMisses(id, short, long);
    case 4 => OverlapMisses(id, short, long);
    case 5 => OverlapWrites(id, short, long);
    case 6 => OverlapArms(id, short, long);
    case 7 => OverlapAdds(id, short, long);
    case 8 => OverlapFinds(id, short, long);
    case _ => OverlapStarts(id, short, long);
  }

  lemma {:induction false} OverlapRun(id: AgentId, short: nat, long: nat, i: nat) returns (es: seq<Event>)
    requires 0 < short && short + 1000 <= long <= MAX_DELAY && i <= 9
    ensures |es| == i && Leads(es, OverlapState(id, short, long, i), id, 0, 0, NO_FAULTS)
  {
    if i == 0 {
      es := [];
    } else {
      es := OverlapRun(id, short, long, i - 1);
      OverlapLinks(id, short, long, i - 1);
      es := Continue(es, OverlapState(id, short, long, i - 1), OverlapEvent(id, short, long, i - 1),
                     OverlapState(id, short, long, i), id, 0, 0, NO_FAULTS);
    }
  }

  /** In `s` spin-up `c` of the agent has added an entry that will expire, found it, and is about to connect. */
  predicate Connecting(s: State, c: CallId, id: AgentId, ttl: nat) {
    c in s.ups && s.ups[c].id == id && s.ups[c].ttl == Finite(ttl) && s.ups[c].stage.Found? && s.ups[c].stage.first.Some?
  }

  /**
   Without any delay coherence is lost when a connection fails after the write to the cache.  The run
   is on time to the millisecond and without fault up to the exception of a spin-up that has added
   the agent with its shorter TTL; when that entry expires the agent still runs, and its only timer is
   the one set by the other spin-up.
   */
  lemma FailedConnectionBreaksCoherence(id: AgentId, short: nat, long: nat, faults: Faults) returns (es: seq<Event>)
    requires 0 < short && short + 1000 <= long <= MAX_DELAY && faults.abandoned
    ensures IsRun(LIFE, es) && Timely(es, id, 0, 0, faults) && |es| == 11
    ensures Timely(es[..9], id, 0, 0, NO_FAULTS) && Connecting(After(LIFE, es[..9]), 2, id, short)
    ensures es[9] == Abort(2) && es[10] == Tick(short + 1000)
    ensures After(LIFE, es).timers == multiset{Timer(id, long)} && !Coherent(After(LIFE, es), id)
  {
    es := OverlapRun(id, short, long, 9);
    TimelyAllowsMore(es, id, 0, 0, NO_FAULTS, faults);
    es := OverlapEnd(id, short, long, faults, es);
    Forgotten(OverlapState(id, short, long, 11), id);
  }

  lemma OverlapEnd(id: AgentId, short: nat, long: nat, faults: Faults, calm: seq<Event>) returns (es: seq<Event>)
    requires 0 < short && short + 1000 <= long <= MAX_DELAY && faults.abandoned
    requires |calm| == 9 && Leads(calm, OverlapState(id, short, long, 9), id, 0, 0, faults)
    ensures |es| == 11 && es[..9] == calm && es[9] == Abort(2) && es[10] == Tick(short + 1000)
    ensures Leads(es, OverlapState(id, short, long, 11), id, 0, 0, faults)
  {
    OverlapLinks3(id, short, long, faults);
    var thrown := Continue(calm, OverlapState(id, short, long, 9), Abort(2), OverlapState(id, short, long, 10), id, 0, 0, faults);
    es := Continue(thrown, OverlapState(id, short, long, 10), Tick(short + 1000), OverlapState(id, short, long, 11), id, 0, 0, faults);
    assert es[..9] == es[..10][..9] == calm;
  }

  // ---------------------------------------------------------------- the exact condition

  /** The cache knows the agent whenever it runs, in every run that shows it no other delays and faults than these. */
  ghost predicate AlwaysCoherent(id: AgentId, gap: nat, late: nat, faults: Faults) {
    forall es | IsRun(LIFE, es) && Timely(es, id, gap, late, faults) :: Coherent(After(LIFE, es), id)
  }

  lemma EveryFaultBreaksCoherence(id: AgentId, gap: nat, late: nat, faults: Faults)
    requires faults != NO_FAULTS
    ensures !AlwaysCoherent(id, gap, late, faults)
  {
    var es;
    if faults.unwritten {
      es := UnwrittenStartBreaksCoherence(id, gap, late, faults);
    } else if faults.stopFails {
      es := FailedStopBreaksCoherence(id, gap, late, faults);
    } else if faults.forgets {
      es := NegativeTtlBreaksCoherence(id, gap, late, faults);
    } else {
      es := FailedConnectionBreaksCoherence(id, 1, 1001, faults);
      TimelyAllowsMore(es, id, gap, late, faults, faults);
    }
  }

  /**
   The cache knows every running agent exactly when the delay before its timer is set and the
   timer's lateness together stay under the second that `setAgentCache` adds, no spin-up of it throws
   once it has started the container or written an entry that expires, no spin-down of it throws, and
   the store keeps entries with a negative TTL.
   */
  lemma CoherentExactlyUnderASecond(id: AgentId, gap: nat, late: nat, faults: Faults)
    ensures AlwaysCoherent(id, gap, late, faults) <==> gap + late < 1000 && faults == NO_FAULTS
  {
    if faults != NO_FAULTS {
      EveryFaultBreaksCoherence(id, gap, late, faults);
    } else if gap + late < 1000 {
      forall es | IsRun(LIFE, es) && Timely(es, id, gap, late, faults) ensures Coherent(After(LIFE, es), id) {
        TimelyRunsAreCoherent(es, id, gap, late);
      }
    } else {
      var es := SlowRun(id, gap, late, faults);
    }
  }
}
