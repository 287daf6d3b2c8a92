/**
 When an agent stops.  Timers are never cancelled, so what counts for an agent is the earliest
 timer pending under its id, whichever spin-up set it.
 */
module ManagerDeadlines {
  import opened Runs
  import opened Manager
  import opened ManagerCoherence

  ghost predicate Descending(s: State, id: AgentId) {
    exists c | c in s.downs :: s.downs[c].id == id
  }

  // ---------------------------------------------------------------- no later than its timer

  /** Call `c` is a spin-down which timer `t` has begun among the first `n` events of `more`. */
  predicate BegunBy(more: seq<Event>, n: nat, c: CallId, t: Timer) {
    exists i | 0 <= i < n <= |more| && more[i].Fire? :: more[i].c == c && more[i].timer == t
  }

  /** A spin-down begun by timer `t` does not throw while the agent runs; any other may, and any may once it is down. */
  predicate Persists(s: State, more: seq<Event>, k: nat, t: Timer)
    requires k < |more|
  {
    more[k].GiveUp? && t.id in s.running ==> !BegunBy(more, k, more[k].c, t)
  }

  ghost predicate Persistent(es: seq<Event>, more: seq<Event>, t: Timer) {
    forall k | 0 <= k < |more| :: Persists(After(LIFE, es + more[..k]), more, k, t)
  }

  /** At some moment of `more` at which the clock was past `time` the agent was not running. */
  ghost predicate WasDownSince(es: seq<Event>, more: seq<Event>, id: AgentId, time: int) {
    exists k | 0 <= k <= |more| :: DownSince(After(LIFE, es + more[..k]), id, time)
  }

  predicate DownSince(s: State, id: AgentId, time: int) { time <= s.now && id !in s.running }

  /** The timer has fired in `more`, and the spin-down it began is under way in `s`. */
  ghost predicate Pursues(more: seq<Event>, s: State, t: Timer) {
    exists k | 0 <= k < |more| && more[k].Fire? :: more[k].timer == t && Chases(s, more[k].c, t.id)
  }

  predicate Chases(s: State, c: CallId, id: AgentId) { c in s.downs && s.downs[c].id == id }

  lemma WasDownStill(es: seq<Event>, more: seq<Event>, id: AgentId, time: int)
    requires more != [] && WasDownSince(es, more[..|more| - 1], id, time)
    ensures WasDownSince(es, more, id, time)
  {
    var front := more[..|more| - 1];
    var k :| 0 <= k <= |front| && DownSince(After(LIFE, es + front[..k]), id, time);
    assert front[..k] == more[..k];
  }

  lemma IsDownNow(es: seq<Event>, more: seq<Event>, id: AgentId, time: int)
    requires DownSince(After(LIFE, es + more), id, time)
    ensures WasDownSince(es, more, id, time)
  {
    assert more[..|more|] == more;
  }

  lemma PendingStep(s: State, e: Event, t: Timer)
    requires Enabled(s, e) && t in s.timers
    ensures t in Next(s, e).timers
         || (e.Fire? && e.timer == t && t.due <= Next(s, e).now && Chases(Next(s, e), e.c, t.id))
  {
  }

  lemma ChaseStep(s: State, e: Event, c: CallId, t: Timer)
    requires Enabled(s, e) && (e == GiveUp(c) ==> t.id !in s.running) && t.due <= s.now && Chases(s, c, t.id)
    ensures t.due <= Next(s, e).now && (Chases(Next(s, e), c, t.id) || t.id !in Next(s, e).running)
  {
  }

  /** A pending timer stays pending until it fires, and its spin-down goes on until the agent is down. */
  ghost predicate InPursuit(es: seq<Event>, more: seq<Event>, t: Timer) {
    var s := After(LIFE, es + more);
    t in s.timers || (t.due <= s.now && Pursues(more, s, t)) || WasDownSince(es, more, t.id, t.due)
  }

  lemma PursuesFurther(es: seq<Event>, more: seq<Event>, t: Timer, k: nat)
    requires IsRun(LIFE, es + more) && k < |more| - 1 && more[k].Fire? && more[k].timer == t
    requires var s := After(LIFE, es + more[..|more| - 1]); t.due <= s.now && Chases(s, more[k].c, t.id)
    requires Persists(After(LIFE, es + more[..|more| - 1]), more, |more| - 1, t)
    ensures InPursuit(es, more, t)
  {
    SplitLast(LIFE, es, more);
    assert BegunBy(more, |more| - 1, more[k].c, t);
    ChaseStep(After(LIFE, es + more[..|more| - 1]), more[|more| - 1], more[k].c, t);
    if !Chases(After(LIFE, es + more), more[k].c, t.id) {
      IsDownNow(es, more, t.id, t.due);
    }
  }

  lemma PursuitStep(es: seq<Event>, more: seq<Event>, t: Timer)
    requires IsRun(LIFE, es + more) && more != [] && InPursuit(es, more[..|more| - 1], t)
    requires Persists(After(LIFE, es + more[..|more| - 1]), more, |more| - 1, t)
    ensures InPursuit(es, more, t)
  {
    var front := more[..|more| - 1];
    var s := After(LIFE, es + front);
    if WasDownSince(es, front, t.id, t.due) {
      WasDownStill(es, more, t.id, t.due);
    } else if t in s.timers {
      SplitLast(LIFE, es, more);
      PendingStep(s, more[|more| - 1], t);
    } else {
      var k :| 0 <= k < |front| && front[k].Fire? && front[k].timer == t && Chases(s, front[k].c, t.id);
      PursuesFurther(es, more, t, k);
    }
  }

  lemma {:induction false} TimerPursues(es: seq<Event>, more: seq<Event>, t: Timer)
    requires IsRun(LIFE, es + more) && Persistent(es, more, t) && t in After(LIFE, es).timers
    ensures InPursuit(es, more, t)
    decreases |more|
  {
    if more == [] {
      assert es + more == es;
    } else {
      var front := more[..|more| - 1];
      SplitLast(LIFE, es, more);
      forall k | 0 <= k < |front| ensures Persists(After(LIFE, es + front[..k]), front, k, t) {
        assert front[..k] == more[..k];
        assert Persists(After(LIFE, es + more[..k]), more, k, t);
      }
      TimerPursues(es, front, t);
      PursuitStep(es, more, t);
    }
  }

  /**
   Deadline: once the clock has passed a timer of the agent by more than that timer is late, the
   agent has been down at some moment since the timer was due, or the spin-down which the timer began
   is still under way.  Only exceptions of that spin-down, while the agent runs, are ruled out; other
   agents, other timers and other calls may do as they like.
   */
  lemma StoppedByItsTimer(es: seq<Event>, more: seq<Event>, t: Timer, late: nat)
    requires IsRun(LIFE, es + more) && Persistent(es, more, t) && t in After(LIFE, es).timers
    requires t in After(LIFE, es + more).timers ==> After(LIFE, es + more).now <= t.due + late
    requires After(LIFE, es + more).now > t.due + late
    ensures WasDownSince(es, more, t.id, t.due) || Pursues(more, After(LIFE, es + more), t)
  {
    TimerPursues(es, more, t);
  }

  lemma ArmSets(s: State, c: CallId)
    requires Enabled(s, Arm(c)) && Timed(s.ups[c].ttl)
    ensures var t := TimerOf(s, c);
            t in Next(s, Arm(c)).timers && forall t' :: Next(s, Arm(c)).timers[t'] == s.timers[t'] + if t' == t then 1 else 0
  {
  }

  /** The timer that the last step of spin-up `c` sets. */
  function TimerOf(s: State, c: CallId): Timer
    requires c in s.ups && Timed(s.ups[c].ttl)
  {
    Timer(s.ups[c].id, s.now + Delay(s.ups[c].ttl))
  }

  /**
   So a spin-up with a finite TTL never leaves its agent running past that TTL and the lateness of its
   timer: it is down at some moment since that timer was due, or its spin-down is under way.
   */
  lemma SpinUpHonoursItsTtl(es: seq<Event>, c: CallId, more: seq<Event>, late: nat)
    requires Enabled(After(LIFE, es), Arm(c)) && Timed(After(LIFE, es).ups[c].ttl)
    requires IsRun(LIFE, es + [Arm(c)] + more) && Persistent(es + [Arm(c)], more, TimerOf(After(LIFE, es), c))
    requires var s, t := After(LIFE, es + [Arm(c)] + more), TimerOf(After(LIFE, es), c);
             t in s.timers ==> s.now <= t.due + late
    requires After(LIFE, es + [Arm(c)] + more).now > After(LIFE, es).now + After(LIFE, es).ups[c].ttl.ms + late
    ensures var t := TimerOf(After(LIFE, es), c);
            || WasDownSince(es + [Arm(c)], more, t.id, t.due)
            || Pursues(more, After(LIFE, es + [Arm(c)] + more), t)
  {
    Extend(LIFE, es, Arm(c));
    ArmSets(After(LIFE, es), c);
    StoppedByItsTimer(es + [Arm(c)], more, TimerOf(After(LIFE, es), c), late);
  }

  // ---------------------------------------------------------------- the TTL that was asked for

  /** Spin-up `c` is not begun anew after event `i`. */
  predicate BegunOnce(es: seq<Event>, i: nat, c: CallId) {
    forall k | i < k < |es| :: es[k].BeginUp? ==> es[k].c != c
  }

  lemma UpKeepsTtl(s: State, e: Event, c: CallId)
    requires Enabled(s, e) && c in Next(s, e).ups && !(e.BeginUp? && e.c == c)
    ensures c in s.ups && Next(s, e).ups[c].id == s.ups[c].id && Next(s, e).ups[c].ttl == s.ups[c].ttl
  {
  }

  /** A spin-up keeps the agent and the TTL it was begun with. */
  lemma {:induction false} TtlIsRemembered(es: seq<Event>, i: nat, c: CallId, id: AgentId, ttl: Ttl)
    requires IsRun(LIFE, es) && i < |es| && es[i] == BeginUp(c, id, ttl) && BegunOnce(es, i, c)
    requires c in After(LIFE, es).ups
    ensures After(LIFE, es).ups[c].id == id && After(LIFE, es).ups[c].ttl == ttl
    decreases |es|
  {
    var front, e := es[..|es| - 1], es[|es| - 1];
    if i < |es| - 1 {
      UpKeepsTtl(After(LIFE, front), e, c);
      TtlIsRemembered(front, i, c, id, ttl);
    }
  }

  /** How long an agent lives that was asked for with this TTL, in milliseconds. */
  predicate AsksFor(ttl: Option<int>, ms: nat) { ms > 0 && (ttl == Some(ms) || (ttl.None? && ms == 3600000)) }

  /** The timer that spin-up `c` is about to set is the one that was asked for. */
  lemma AskedTimer(s: State, c: CallId, ttl: Option<int>, ms: nat)
    requires c in s.ups && s.ups[c].ttl == NormaliseTtl(ttl) && AsksFor(ttl, ms)
    ensures Timed(s.ups[c].ttl) && s.ups[c].ttl.ms == ms
    ensures TimerOf(s, c) == Timer(s.ups[c].id, s.now + if ms <= 2147483647 then ms else 1)
  {
  }

  /** `t` is due when the asked TTL is over, or at once when it is more than 2147483647 ms. */
  predicate DueAsAsked(s: State, t: Timer, id: AgentId, ms: nat) {
    t == Timer(id, s.now + if ms <= 2147483647 then ms else 1)
  }

  /**
   From the request on: an agent asked for with a positive TTL, or with none, is down at some moment since
   its timer was due, or is being stopped, once that TTL, an hour by default, and the lateness of the
   timer are over.
   */
  lemma AskedTtlIsHonoured(
    es: seq<Event>, i: nat, c: CallId, id: AgentId, ttl: Option<int>, ms: nat, t: Timer, more: seq<Event>, late: nat)
    requires AsksFor(ttl, ms) && DueAsAsked(After(LIFE, es), t, id, ms)
    requires IsRun(LIFE, es) && Enabled(After(LIFE, es), Arm(c))
    requires i < |es| && es[i] == BeginUp(c, id, NormaliseTtl(ttl)) && BegunOnce(es, i, c)
    requires IsRun(LIFE, es + [Arm(c)] + more) && Persistent(es + [Arm(c)], more, t)
    requires t in After(LIFE, es + [Arm(c)] + more).timers ==> After(LIFE, es + [Arm(c)] + more).now <= t.due + late
    requires After(LIFE, es + [Arm(c)] + more).now > After(LIFE, es).now + ms + late
    ensures WasDownSince(es + [Arm(c)], more, id, t.due) || Pursues(more, After(LIFE, es + [Arm(c)] + more), t)
  {
    TtlIsRemembered(es, i, c, id, NormaliseTtl(ttl));
    AskedTimer(After(LIFE, es), c, ttl, ms);
    SpinUpHonoursItsTtl(es, c, more, late);
  }

  // ---------------------------------------------------------------- out of the cache

  /** Spin-down `c` empties the cache of its agent, and of no other. */
  lemma DeleteEmptiesCache(s: State, c: CallId)
    requires Enabled(s, Delete(c))
    ensures s.downs[c].id !in Next(s, Delete(c)).cache
    ensures forall id | id != s.downs[c].id ::
              (id in Next(s, Delete(c)).cache <==> id in s.cache) && (id in s.cache ==> Next(s, Delete(c)).cache[id] == s.cache[id])
  {
  }

  /** A spin-up of the agent writes the cache. */
  predicate WritesFor(s: State, e: Event, id: AgentId) {
    (e.Add? || e.Write?) && e.c in s.ups && s.ups[e.c].id == id
  }

  ghost predicate UnwrittenSince(es: seq<Event>, all: seq<Event>, id: AgentId) {
    es <= all && forall k | |es| <= k < |all| :: !WritesFor(After(LIFE, all[..k]), all[k], id)
  }

  lemma UncachedStep(s: State, e: Event, id: AgentId)
    requires id !in s.cache && !WritesFor(s, e, id)
    ensures id !in Next(s, e).cache
  {
  }

  /** An agent that is not cached stays so until a spin-up of it writes. */
  lemma {:induction false} UncachedUntilWritten(es: seq<Event>, all: seq<Event>, id: AgentId)
    requires UnwrittenSince(es, all, id) && id !in After(LIFE, es).cache
    ensures id !in After(LIFE, all).cache
    decreases |all|
  {
    if es != all {
      var front := all[..|all| - 1];
      forall k | |es| <= k < |front| ensures !WritesFor(After(LIFE, front[..k]), front[k], id) {
        assert front[..k] == all[..k];
      }
      UncachedUntilWritten(es, front, id);
      assert !WritesFor(After(LIFE, all[..|all| - 1]), all[|all| - 1], id);
      UncachedStep(After(LIFE, front), all[|all| - 1], id);
    }
  }

  /** So what a spin-down has deleted is out of the cache until the next spin-up of that agent writes. */
  lemma DeletedStaysOut(es: seq<Event>, c: CallId, all: seq<Event>)
    requires IsRun(LIFE, all) && Enabled(After(LIFE, es), Delete(c))
    requires UnwrittenSince(es + [Delete(c)], all, After(LIFE, es).downs[c].id)
    ensures After(LIFE, es).downs[c].id !in After(LIFE, all).cache
  {
    Extend(LIFE, es, Delete(c));
    DeleteEmptiesCache(After(LIFE, es), c);
    UncachedUntilWritten(es + [Delete(c)], all, After(LIFE, es).downs[c].id);
  }

  // ---------------------------------------------------------------- no earlier than its timer

  /** No timer of the agent is due. */
  ghost predicate NothingDue(s: State, id: AgentId) {
    forall t | t in s.timers && t.id == id :: s.now < t.due
  }

  lemma NoneDescends(s: State, e: Event, id: AgentId)
    requires Enabled(s, e) && !Descending(s, id) && NothingDue(s, id)
    requires e.BeginDown? ==> e.id != id
    ensures !Descending(Next(s, e), id)
  {
    var t := Next(s, e);
    forall c | c in t.downs ensures t.downs[c].id != id {
      if c in s.downs {
        assert s.downs[c].id != id;
      }
    }
  }

  lemma UndisturbedStep(s: State, e: Event, id: AgentId)
    requires Enabled(s, e) && id in s.running && !Descending(s, id) && NothingDue(s, id)
    requires e.BeginDown? ==> e.id != id
    ensures id in Next(s, e).running && !Descending(Next(s, e), id)
  {
    NoneDescends(s, e, id);
    if e.Stop? {
      assert s.downs[e.c].id != id;
    }
  }

  /** Without an explicit spin-down an agent runs at least until the earliest of its pending timers is due. */
  lemma {:induction false} RunsUntilDue(es: seq<Event>, more: seq<Event>, id: AgentId)
    requires IsRun(LIFE, es + more)
    requires id in After(LIFE, es).running && !Descending(After(LIFE, es), id)
    requires forall i | 0 <= i < |more| :: more[i].BeginDown? ==> more[i].id != id
    requires forall k | 0 <= k < |more| :: NothingDue(After(LIFE, es + more[..k]), id)
    ensures id in After(LIFE, es + more).running && !Descending(After(LIFE, es + more), id)
    decreases |more|
  {
    if more == [] {
      assert es + more == es;
    } else {
      var front := more[..|more| - 1];
      SplitLast(LIFE, es, more);
      forall k | 0 <= k < |front| ensures NothingDue(After(LIFE, es + front[..k]), id) {
        assert front[..k] == more[..k];
      }
      RunsUntilDue(es, front, id);
      UndisturbedStep(After(LIFE, es + front), more[|more| - 1], id);
    }
  }

  // ---------------------------------------------------------------- no earlier than its TTL

  /** The agent runs, no timer of it is due before `due`, and no call works on it. */
  ghost predicate LeftTo(s: State, id: AgentId, due: nat) {
    && id in s.running && !Descending(s, id)
    && (forall t | t in s.timers && t.id == id :: due <= t.due)
    && (forall c | c in s.ups :: s.ups[c].id != id)
  }

  /** No call for this agent begins. */
  predicate Leaves(e: Event, id: AgentId) {
    match e
    case BeginUp(_, id', _) => id' != id
    case BeginDown(_, id') => id' != id
    case _ => true
  }

  /** `all` goes on from `es`, and no call for this agent begins in it. */
  predicate LeavesSince(es: seq<Event>, all: seq<Event>, id: AgentId) {
    es <= all && forall i | |es| <= i < |all| :: Leaves(all[i], id)
  }

  lemma LeftToTimers(s: State, e: Event, id: AgentId, due: nat)
    requires Enabled(s, e) && LeftTo(s, id, due) && Leaves(e, id)
    ensures forall t | t in Next(s, e).timers && t.id == id :: due <= t.due
    ensures forall c | c in Next(s, e).ups :: Next(s, e).ups[c].id != id
  {
    forall t | t in Next(s, e).timers && t.id == id ensures due <= t.due {
      assert t in s.timers;
    }
  }

  lemma LeftToStep(s: State, e: Event, id: AgentId, due: nat)
    requires Enabled(s, e) && LeftTo(s, id, due) && Leaves(e, id) && Next(s, e).now < due
    ensures LeftTo(Next(s, e), id, due)
  {
    LeftToTimers(s, e, id, due);
    assert s.now <= Next(s, e).now;
    UndisturbedStep(s, e, id);
  }

  lemma {:induction false} RunsUntilItsTimer(es: seq<Event>, all: seq<Event>, id: AgentId, due: nat)
    requires IsRun(LIFE, all) && LeavesSince(es, all, id)
    requires LeftTo(After(LIFE, es), id, due) && After(LIFE, all).now < due
    ensures LeftTo(After(LIFE, all), id, due)
    decreases |all|
  {
    if es != all {
      var front, e := all[..|all| - 1], all[|all| - 1];
      assert After(LIFE, front).now <= After(LIFE, all).now;
      RunsUntilItsTimer(es, front, id, due);
      LeftToStep(After(LIFE, front), e, id, due);
    }
  }

  /** Spin-up `c` is about to set the first timer of an agent that runs and on which no other call works. */
  ghost predicate FirstTimer(s: State, c: CallId) {
    && Enabled(s, Arm(c)) && Timed(s.ups[c].ttl) && s.ups[c].id in s.running && !Descending(s, s.ups[c].id)
    && (forall t | t in s.timers :: t.id != s.ups[c].id)
    && (forall d | d in s.ups && d != c :: s.ups[d].id != s.ups[c].id)
  }

  lemma ArmLeavesTo(s: State, c: CallId)
    requires FirstTimer(s, c)
    ensures LeftTo(Next(s, Arm(c)), s.ups[c].id, TimerOf(s, c).due)
  {
    ArmSets(s, c);
    var t := Next(s, Arm(c));
    forall x | x in t.timers && x.id == s.ups[c].id ensures TimerOf(s, c).due <= x.due {
      assert t.timers[x] == s.timers[x] + if x == TimerOf(s, c) then 1 else 0;
    }
  }

  /** From the moment the timer is set the agent runs until its TTL is over, if no call for it begins. */
  ghost predicate KeepsItsTtl(es: seq<Event>, c: CallId)
    requires Enabled(After(LIFE, es), Arm(c)) && Timed(After(LIFE, es).ups[c].ttl)
  {
    var s := After(LIFE, es);
    forall all | IsRun(LIFE, all) && LeavesSince(es + [Arm(c)], all, s.ups[c].id) ::
      After(LIFE, all).now < s.now + s.ups[c].ttl.ms ==> s.ups[c].id in After(LIFE, all).running
  }

  lemma TtlIsKept(es: seq<Event>, c: CallId)
    requires IsRun(LIFE, es) && FirstTimer(After(LIFE, es), c) && After(LIFE, es).ups[c].ttl.ms <= MAX_DELAY
    ensures KeepsItsTtl(es, c)
  {
    var s := After(LIFE, es);
    Extend(LIFE, es, Arm(c));
    ArmLeavesTo(s, c);
    forall all | IsRun(LIFE, all) && LeavesSince(es + [Arm(c)], all, s.ups[c].id)
      ensures After(LIFE, all).now < s.now + s.ups[c].ttl.ms ==> s.ups[c].id in After(LIFE, all).running
    {
      if After(LIFE, all).now < s.now + s.ups[c].ttl.ms {
        RunsUntilItsTimer(es + [Arm(c)], all, s.ups[c].id, s.now + s.ups[c].ttl.ms);
      }
    }
  }

  /** No call is a spin-up and a spin-down at once. */
  ghost predicate Disjoint(s: State) {
    forall c | c in s.ups :: c !in s.downs
  }

  lemma DisjointStep(s: State, e: Event)
    requires Disjoint(s)
    ensures Disjoint(Next(s, e))
  {
  }

  lemma {:induction false} AlwaysDisjoint(es: seq<Event>)
    ensures Disjoint(After(LIFE, es))
  {
    if es != [] {
      AlwaysDisjoint(es[..|es| - 1]);
      DisjointStep(After(LIFE, es[..|es| - 1]), es[|es| - 1]);
    }
  }

  /** A timer that is due stops its agent at once when nothing comes between. */
  lemma FiresAtOnce(s: State, c: CallId, t: Timer)
    requires c !in s.ups && c !in s.downs && t in s.timers && t.due <= s.now
    ensures var s1 := Next(s, Fire(c, t)); var s2 := Next(s1, Delete(c)); var s3 := Next(s2, Stop(c));
            && Enabled(s, Fire(c, t)) && Enabled(s1, Delete(c)) && Enabled(s2, Stop(c))
            && s3.now == s.now && t.id !in s3.running
  {
  }

  lemma RunFiresAtOnce(es: seq<Event>, c: CallId, t: Timer) returns (all: seq<Event>)
    requires IsRun(LIFE, es) && c !in After(LIFE, es).ups && c !in After(LIFE, es).downs
    requires t in After(LIFE, es).timers && t.due <= After(LIFE, es).now
    ensures IsRun(LIFE, all) && LeavesSince(es, all, t.id)
    ensures After(LIFE, all).now == After(LIFE, es).now && t.id !in After(LIFE, all).running
  {
    FiresAtOnce(After(LIFE, es), c, t);
    Extend3(LIFE, es, Fire(c, t), Delete(c), Stop(c));
    all := es + [Fire(c, t)] + [Delete(c)] + [Stop(c)];
  }

  lemma ArmAndTick(es: seq<Event>, c: CallId) returns (all: seq<Event>)
    requires IsRun(LIFE, es) && Enabled(After(LIFE, es), Arm(c)) && Timed(After(LIFE, es).ups[c].ttl)
    ensures IsRun(LIFE, all) && LeavesSince(es + [Arm(c)], all, After(LIFE, es).ups[c].id)
    ensures var s := After(LIFE, all);
            && s.now == After(LIFE, es).now + 1 && TimerOf(After(LIFE, es), c) in s.timers
            && c !in s.ups && (c in s.downs <==> c in After(LIFE, es).downs)
  {
    all := es + [Arm(c)] + [Tick(1)];
    ArmSets(After(LIFE, es), c);
    Extend(LIFE, es, Arm(c));
    Extend(LIFE, es + [Arm(c)], Tick(1));
  }

  lemma LeavesFurther(es: seq<Event>, mid: seq<Event>, all: seq<Event>, id: AgentId)
    requires LeavesSince(es, mid, id) && LeavesSince(mid, all, id)
    ensures LeavesSince(es, all, id)
  {
    forall i | |es| <= i < |all| ensures Leaves(all[i], id) {
      assert i < |mid| ==> all[i] == mid[i];
    }
  }

  /** A TTL beyond what `setTimeout` can wait for: the agent can be down one millisecond after its timer was set. */
  lemma TtlIsLost(es: seq<Event>, c: CallId) returns (all: seq<Event>)
    requires IsRun(LIFE, es) && FirstTimer(After(LIFE, es), c) && After(LIFE, es).ups[c].ttl.ms > MAX_DELAY
    ensures IsRun(LIFE, all) && LeavesSince(es + [Arm(c)], all, After(LIFE, es).ups[c].id)
    ensures After(LIFE, all).now == After(LIFE, es).now + 1
    ensures After(LIFE, es).ups[c].id !in After(LIFE, all).running
  {
    AlwaysDisjoint(es);
    var mid := ArmAndTick(es, c);
    all := RunFiresAtOnce(mid, c, TimerOf(After(LIFE, es), c));
    LeavesFurther(es + [Arm(c)], mid, all, After(LIFE, es).ups[c].id);
  }

  /**
   The first timed spin-up of an agent that is left alone keeps it running for its whole TTL, by every
   interleaving with the calls of others, exactly when `setTimeout` can wait that long.
   */
  lemma TtlIsKeptExactlyUpToMaxDelay(es: seq<Event>, c: CallId)
    requires IsRun(LIFE, es) && FirstTimer(After(LIFE, es), c)
    ensures KeepsItsTtl(es, c) <==> After(LIFE, es).ups[c].ttl.ms <= MAX_DELAY
  {
    if After(LIFE, es).ups[c].ttl.ms <= MAX_DELAY {
      TtlIsKept(es, c);
    } else {
      var all := TtlIsLost(es, c);
    }
  }

  // ---------------------------------------------------------------- for ever

  /** The agent runs, is cached for ever, and nothing that could end it is pending or in flight. */
  ghost predicate Everlasting(s: State, id: AgentId) {
    && id in s.running && id in s.cache && s.cache[id] == Never && !Descending(s, id)
    && (forall t | t in s.timers :: t.id != id)
    && (forall c | c in s.ups && s.ups[c].id == id :: s.ups[c].ttl == Infinite)
  }

  /** No explicit spin-down of the agent, and no spin-up of it with a TTL of its own. */
  predicate Spares(e: Event, id: AgentId) {
    match e
    case BeginUp(_, id', ttl) => id' == id ==> ttl == Infinite
    case BeginDown(_, id') => id' != id
    case _ => true
  }

  lemma NoTimers(s: State, e: Event, id: AgentId)
    requires Enabled(s, e) && Everlasting(s, id)
    ensures forall t | t in Next(s, e).timers :: t.id != id
  {
    forall t | t in Next(s, e).timers ensures t.id != id {
      assert t in s.timers || (e.Arm? && t.id == s.ups[e.c].id && Timed(s.ups[e.c].ttl));
    }
  }

  lemma OnlyEndless(s: State, e: Event, id: AgentId)
    requires Enabled(s, e) && Everlasting(s, id) && Spares(e, id)
    ensures forall c | c in Next(s, e).ups && Next(s, e).ups[c].id == id :: Next(s, e).ups[c].ttl == Infinite
  {
  }

  lemma EverlastingStep(s: State, e: Event, id: AgentId)
    requires Enabled(s, e) && Everlasting(s, id) && Spares(e, id)
    ensures Everlasting(Next(s, e), id)
  {
    NoTimers(s, e, id);
    OnlyEndless(s, e, id);
    UndisturbedStep(s, e, id);
    if Touches(s, e, id) {
      assert Writes(e) && s.ups[e.c].ttl == Infinite;
    } else {
      Untouched(s, e, id);
    }
  }

  /** An agent spun up with TTL 0 and no older timer under its id runs, and stays cached, until it is spun down. */
  lemma {:induction false} RunsForEver(es: seq<Event>, more: seq<Event>, id: AgentId)
    requires IsRun(LIFE, es + more) && Everlasting(After(LIFE, es), id)
    requires forall i | 0 <= i < |more| :: Spares(more[i], id)
    ensures Everlasting(After(LIFE, es + more), id)
    decreases |more|
  {
    if more == [] {
      assert es + more == es;
    } else {
      SplitLast(LIFE, es, more);
      RunsForEver(es, more[..|more| - 1], id);
      EverlastingStep(After(LIFE, es + more[..|more| - 1]), more[|more| - 1], id);
    }
  }

  /** The first write of a spin-up with TTL 0, with nothing older left for its agent, makes it everlasting. */
  lemma EndlessWrite(s: State, c: CallId, kept: Expiry)
    requires Enabled(s, Write(c, kept)) && s.ups[c].id in s.running && !Descending(s, s.ups[c].id)
    requires forall t | t in s.timers :: t.id != s.ups[c].id
    requires forall d | d in s.ups && s.ups[d].id == s.ups[c].id :: s.ups[d].ttl == NormaliseTtl(Some(0))
    ensures Everlasting(Next(s, Write(c, kept)), s.ups[c].id)
  {
  }

  /**
   An agent that a spin-up with TTL 0 caches while no timer, spin-down or timed spin-up of it is
   left keeps running and stays cached, whatever else happens, until it is spun down or spun up with
   a TTL of its own.
   */
  lemma TtlZeroRunsForEver(es: seq<Event>, c: CallId, kept: Expiry, more: seq<Event>)
    requires IsRun(LIFE, es + [Write(c, kept)] + more) && Enabled(After(LIFE, es), Write(c, kept))
    requires var s := After(LIFE, es); var id := s.ups[c].id;
             && id in s.running && !Descending(s, id) && (forall t | t in s.timers :: t.id != id)
             && (forall d | d in s.ups && s.ups[d].id == id :: s.ups[d].ttl == NormaliseTtl(Some(0)))
             && (forall i | 0 <= i < |more| :: Spares(more[i], id))
    ensures After(LIFE, es).ups[c].id in After(LIFE, es + [Write(c, kept)] + more).running
    ensures Live(After(LIFE, es + [Write(c, kept)] + more), After(LIFE, es).ups[c].id)
  {
    Extend(LIFE, es, Write(c, kept));
    EndlessWrite(After(LIFE, es), c, kept);
    RunsForEver(es + [Write(c, kept)], more, After(LIFE, es).ups[c].id);
  }
}
