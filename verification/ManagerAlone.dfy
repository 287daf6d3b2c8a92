/**
 What the operations of the manager do when nothing comes between their steps, after any history
 and with any other calls suspended: the whole state they leave.
 */
module ManagerAlone {
  import opened Runs
  import opened Manager
  import opened ManagerDeadlines

  // ---------------------------------------------------------------- starting an agent

  ghost function SpinUpStates(s: State, c: CallId, id: AgentId, ttl: Ttl, kept: Expiry, i: nat): State {
    match i
    case 0 => s
    case 1 => s.(ups := s.ups[c := Up(id, ttl, Begun, false)])
    case 2 => s.(running := s.running + {id}, ups := s.ups[c := Up(id, ttl, Started, true)])
    case _ => s.(running := s.running + {id}, cache := s.cache[id := kept], ups := s.ups[c := Up(id, ttl, Cached(s.now), false)])
  }

  lemma SpinUpSteps(s: State, c: CallId, id: AgentId, ttl: Ttl, kept: Expiry)
    requires c !in s.ups && c !in s.downs && id !in s.running && ttl != Finite(0) && MayKeep(ttl, s.now, kept)
    ensures Steps(LIFE, s, BeginUp(c, id, ttl), SpinUpStates(s, c, id, ttl, kept, 1))
    ensures Steps(LIFE, SpinUpStates(s, c, id, ttl, kept, 1), Start(c, Answered), SpinUpStates(s, c, id, ttl, kept, 2))
    ensures Steps(LIFE, SpinUpStates(s, c, id, ttl, kept, 2), Write(c, kept), SpinUpStates(s, c, id, ttl, kept, 3))
  {
  }

  /** `c` has written its entry and arms its timer. */
  lemma ArmStep(s: State, c: CallId, id: AgentId, ttl: Ttl, wrote: nat)
    requires c !in s.ups
    ensures var t := s.(ups := s.ups[c := Up(id, ttl, Cached(wrote), false)]);
            Steps(LIFE, t, Arm(c), s.(timers := s.timers + NewTimers(id, ttl, s.now)))
  {
    assert s.ups[c := Up(id, ttl, Cached(wrote), false)] - {c} == s.ups;
  }

  lemma AskedTimers(id: AgentId, ttl: Option<int>, ms: nat, now: nat)
    requires AsksFor(ttl, ms) && ms <= 2147483647
    ensures NewTimers(id, NormaliseTtl(ttl), now) == multiset{Timer(id, now + ms)}
    ensures MayKeep(NormaliseTtl(ttl), now, At(now + ms + 1000)) && Timed(NormaliseTtl(ttl))
  {
  }

  /** Begin, start, write and arm. */
  ghost function SpinUpRun(es: seq<Event>, c: CallId, id: AgentId, ttl: Ttl, kept: Expiry): seq<Event> {
    es + [BeginUp(c, id, ttl)] + [Start(c, Answered)] + [Write(c, kept)] + [Arm(c)]
  }

  lemma RunsSpinUp(es: seq<Event>, c: CallId, id: AgentId, ttl: Ttl, kept: Expiry, t: State) returns (all: seq<Event>)
    requires IsRun(LIFE, es)
    requires var s := After(LIFE, es); c !in s.ups && c !in s.downs && id !in s.running && MayKeep(ttl, s.now, kept)
    requires ttl != Finite(0)
    requires var s := After(LIFE, es);
             t == s.(running := s.running + {id}, cache := s.cache[id := kept], timers := s.timers + NewTimers(id, ttl, s.now))
    ensures all == SpinUpRun(es, c, id, ttl, kept) && Reaches(LIFE, es, all, t)
  {
    var s := After(LIFE, es);
    SpinUpSteps(s, c, id, ttl, kept);
    all := es + [BeginUp(c, id, ttl)];
    Goes(LIFE, es, es, s, BeginUp(c, id, ttl), SpinUpStates(s, c, id, ttl, kept, 1));
    Goes(LIFE, es, all, SpinUpStates(s, c, id, ttl, kept, 1), Start(c, Answered), SpinUpStates(s, c, id, ttl, kept, 2));
    all := all + [Start(c, Answered)];
    Goes(LIFE, es, all, SpinUpStates(s, c, id, ttl, kept, 2), Write(c, kept), SpinUpStates(s, c, id, ttl, kept, 3));
    all := all + [Write(c, kept)];
    ArmStep(s.(running := s.running + {id}, cache := s.cache[id := kept]), c, id, ttl, s.now);
    Goes(LIFE, es, all, SpinUpStates(s, c, id, ttl, kept, 3), Arm(c), t);
    all := all + [Arm(c)];
  }

  /** `s` with an entry of the agent that lives a second longer than `ms`, and a timer due after `ms`. */
  function Served(s: State, id: AgentId, ms: nat, running: set<AgentId>): State {
    s.(running := running, cache := s.cache[id := At(s.now + ms + 1000)], timers := s.timers + multiset{Timer(id, s.now + ms)})
  }

  lemma ServedIs(s: State, id: AgentId, ttl: Ttl, ms: nat)
    requires NewTimers(id, ttl, s.now) == multiset{Timer(id, s.now + ms)}
    ensures Served(s, id, ms, s.running + {id})
         == s.(running := s.running + {id}, cache := s.cache[id := At(s.now + ms + 1000)],
               timers := s.timers + NewTimers(id, ttl, s.now))
  {
  }

  /**
   An absent agent asked for with a TTL, or with none, then runs, is cached for a second longer than
   that TTL, an hour by default, and has one more timer, due after exactly that TTL.
   */
  lemma SpinUpAlone(es: seq<Event>, c: CallId, id: AgentId, ttl: Option<int>, ms: nat) returns (all: seq<Event>)
    requires IsRun(LIFE, es) && AsksFor(ttl, ms) && ms <= 2147483647
    requires var s := After(LIFE, es); c !in s.ups && c !in s.downs && id !in s.running
    ensures var s := After(LIFE, es);
            && all == SpinUpRun(es, c, id, NormaliseTtl(ttl), At(s.now + ms + 1000))
            && Reaches(LIFE, es, all, Served(s, id, ms, s.running + {id}))
  {
    var s := After(LIFE, es);
    var kept := At(s.now + ms + 1000);
    AskedTimers(id, ttl, ms, s.now);
    ServedIs(s, id, NormaliseTtl(ttl), ms);
    all := RunsSpinUp(es, c, id, NormaliseTtl(ttl), kept, Served(s, id, ms, s.running + {id}));
  }

  /** Asked for with TTL 0 it runs, is cached for ever and has no timer. */
  lemma SpinUpForEverAlone(es: seq<Event>, c: CallId, id: AgentId) returns (all: seq<Event>)
    requires IsRun(LIFE, es)
    requires var s := After(LIFE, es); c !in s.ups && c !in s.downs && id !in s.running
    ensures all == SpinUpRun(es, c, id, NormaliseTtl(Some(0)), Never)
    ensures var s := After(LIFE, es);
            Reaches(LIFE, es, all, s.(running := s.running + {id}, cache := s.cache[id := Never]))
  {
    var s := After(LIFE, es);
    assert s.timers + multiset{} == s.timers;
    all := RunsSpinUp(es, c, id, Infinite, Never, s.(running := s.running + {id}, cache := s.cache[id := Never]));
  }

  // ---------------------------------------------------------------- an agent that runs already

  lemma MeetsSteps(s: State, c: CallId, id: AgentId, ttl: Ttl)
    requires c !in s.ups && c !in s.downs && id in s.running && ttl != Finite(0)
    ensures var s1 := s.(ups := s.ups[c := Up(id, ttl, Begun, false)]);
            var s2 := s.(ups := s.ups[c := Up(id, ttl, Refused, false)]);
            var s3 := s.(ups := s.ups[c := Up(id, ttl, if Live(s, id) then Found(None) else Missing, false)]);
            Steps(LIFE, s, BeginUp(c, id, ttl), s1) && Steps(LIFE, s1, Start(c, Answered), s2) && Steps(LIFE, s2, Look(c), s3)
  {
  }

  lemma RunsUntilLook(es: seq<Event>, c: CallId, id: AgentId, ttl: Ttl) returns (all: seq<Event>)
    requires IsRun(LIFE, es)
    requires var s := After(LIFE, es); c !in s.ups && c !in s.downs && id in s.running && ttl != Finite(0)
    ensures all == es + [BeginUp(c, id, ttl)] + [Start(c, Answered)] + [Look(c)]
    ensures var s := After(LIFE, es);
            Reaches(LIFE, es, all, s.(ups := s.ups[c := Up(id, ttl, if Live(s, id) then Found(None) else Missing, false)]))
  {
    var s := After(LIFE, es);
    MeetsSteps(s, c, id, ttl);
    Extend3(LIFE, es, BeginUp(c, id, ttl), Start(c, Answered), Look(c));
    all := es + [BeginUp(c, id, ttl)] + [Start(c, Answered)] + [Look(c)];
  }

  lemma WriteStep(s: State, c: CallId, id: AgentId, ttl: Ttl, kept: Expiry, first: Option<nat>)
    requires c !in s.ups && MayKeep(ttl, s.now, kept)
    ensures var wrote := if first.Some? then first.value else s.now;
            Steps(LIFE, s.(ups := s.ups[c := Up(id, ttl, Found(first), false)]), Write(c, kept),
                  s.(cache := s.cache[id := kept], ups := s.ups[c := Up(id, ttl, Cached(wrote), false)]))
  {
  }

  lemma FinishesFound(es: seq<Event>, mid: seq<Event>, s: State, c: CallId, id: AgentId, ttl: Ttl, kept: Expiry, first: Option<nat>, u: State)
    returns (all: seq<Event>)
    requires c !in s.ups && MayKeep(ttl, s.now, kept)
    requires Reaches(LIFE, es, mid, s.(ups := s.ups[c := Up(id, ttl, Found(first), false)]))
    requires u == s.(cache := s.cache[id := kept], timers := s.timers + NewTimers(id, ttl, s.now))
    ensures Reaches(LIFE, es, all, u)
  {
    var wrote := if first.Some? then first.value else s.now;
    var t := s.(cache := s.cache[id := kept], ups := s.ups[c := Up(id, ttl, Cached(wrote), false)]);
    WriteStep(s, c, id, ttl, kept, first);
    Goes(LIFE, es, mid, s.(ups := s.ups[c := Up(id, ttl, Found(first), false)]), Write(c, kept), t);
    ArmStep(s.(cache := s.cache[id := kept]), c, id, ttl, wrote);
    Goes(LIFE, es, mid + [Write(c, kept)], t, Arm(c), u);
    all := mid + [Write(c, kept)] + [Arm(c)];
  }

  /** A running, cached agent asked for again keeps running, gets a new entry and one more timer. */
  lemma SpinUpOfCachedAlone(es: seq<Event>, c: CallId, id: AgentId, ttl: Option<int>, ms: nat) returns (all: seq<Event>)
    requires IsRun(LIFE, es) && AsksFor(ttl, ms) && ms <= 2147483647
    requires var s := After(LIFE, es); c !in s.ups && c !in s.downs && id in s.running && Live(s, id)
    ensures var s := After(LIFE, es);
            Reaches(LIFE, es, all, Served(s, id, ms, s.running))
  {
    var s, ttl' := After(LIFE, es), NormaliseTtl(ttl);
    var mid := RunsUntilLook(es, c, id, ttl');
    AskedTimers(id, ttl, ms, s.now);
    all := FinishesFound(es, mid, s, c, id, ttl', At(s.now + ms + 1000), None, Served(s, id, ms, s.running));
  }

  lemma AddSteps(s: State, c: CallId, id: AgentId, ttl: Ttl, kept: Expiry)
    requires c !in s.ups && MayKeep(ttl, s.now, kept) && Timed(ttl)
    ensures var s1 := s.(ups := s.ups[c := Up(id, ttl, Missing, false)]);
            var s2 := s.(cache := s.cache[id := kept], ups := s.ups[c := Up(id, ttl, Added(s.now), false)]);
            var s3 := s.(cache := s.cache[id := kept], ups := s.ups[c := Up(id, ttl, Found(Some(s.now)), false)]);
            Steps(LIFE, s1, Add(c, kept), s2) && Steps(LIFE, s2, ReadBack(c), s3)
  {
  }

  /** So does a running agent that the cache has forgotten: it is added, and found again. */
  lemma SpinUpOfForgottenAlone(es: seq<Event>, c: CallId, id: AgentId, ttl: Option<int>, ms: nat) returns (all: seq<Event>)
    requires IsRun(LIFE, es) && AsksFor(ttl, ms) && ms <= 2147483647
    requires var s := After(LIFE, es); c !in s.ups && c !in s.downs && id in s.running && !Live(s, id)
    ensures var s := After(LIFE, es);
            Reaches(LIFE, es, all, Served(s, id, ms, s.running))
  {
    var s, ttl' := After(LIFE, es), NormaliseTtl(ttl);
    var kept := At(s.now + ms + 1000);
    AskedTimers(id, ttl, ms, s.now);
    var mid := RunsUntilLook(es, c, id, ttl');
    var cached := s.(cache := s.cache[id := kept]);
    mid := AddsAndFinds(es, mid, s, c, id, ttl', kept, cached);
    WrittenTwice(s, id, ttl', ms, cached);
    all := FinishesFound(es, mid, cached, c, id, ttl', kept, Some(s.now), Served(s, id, ms, s.running));
  }

  lemma WrittenTwice(s: State, id: AgentId, ttl: Ttl, ms: nat, cached: State)
    requires cached == s.(cache := s.cache[id := At(s.now + ms + 1000)])
    requires NewTimers(id, ttl, s.now) == multiset{Timer(id, s.now + ms)}
    ensures Served(s, id, ms, s.running)
         == cached.(cache := cached.cache[id := At(s.now + ms + 1000)], timers := cached.timers + NewTimers(id, ttl, cached.now))
  {
    assert cached.cache[id := At(s.now + ms + 1000)] == cached.cache;
  }

  lemma AddsAndFinds(es: seq<Event>, mid: seq<Event>, s: State, c: CallId, id: AgentId, ttl: Ttl, kept: Expiry, cached: State)
    returns (all: seq<Event>)
    requires c !in s.ups && MayKeep(ttl, s.now, kept) && Timed(ttl) && cached == s.(cache := s.cache[id := kept])
    requires Reaches(LIFE, es, mid, s.(ups := s.ups[c := Up(id, ttl, Missing, false)]))
    ensures Reaches(LIFE, es, all, cached.(ups := cached.ups[c := Up(id, ttl, Found(Some(s.now)), false)]))
  {
    var s2 := s.(cache := s.cache[id := kept], ups := s.ups[c := Up(id, ttl, Added(s.now), false)]);
    var s3 := s.(cache := s.cache[id := kept], ups := s.ups[c := Up(id, ttl, Found(Some(s.now)), false)]);
    AddSteps(s, c, id, ttl, kept);
    Goes(LIFE, es, mid, s.(ups := s.ups[c := Up(id, ttl, Missing, false)]), Add(c, kept), s2);
    Goes(LIFE, es, mid + [Add(c, kept)], s2, ReadBack(c), s3);
    assert s3 == cached.(ups := cached.ups[c := Up(id, ttl, Found(Some(s.now)), false)]);
    all := mid + [Add(c, kept)] + [ReadBack(c)];
  }

  // ---------------------------------------------------------------- stopping an agent

  lemma DownSteps(s: State, c: CallId, id: AgentId, due: Option<nat>)
    requires c !in s.downs
    ensures var s1 := s.(downs := s.downs[c := Ordered(id, due)]);
            var s2 := s.(cache := s.cache - {id}, downs := s.downs[c := Deleted(id)]);
            && Steps(LIFE, s1, Delete(c), s2)
            && Steps(LIFE, s2, Stop(c), s.(running := s.running - {id}, cache := s.cache - {id}))
  {
    assert s.downs[c := Deleted(id)] - {c} == s.downs;
  }

  /** A spin-down stops its agent and takes it out of the cache, and changes nothing else. */
  lemma SpinDownAlone(es: seq<Event>, c: CallId, id: AgentId)
    requires IsRun(LIFE, es) && c !in After(LIFE, es).ups && c !in After(LIFE, es).downs
    ensures var s := After(LIFE, es);
            Reaches(LIFE, es, es + [BeginDown(c, id)] + [Delete(c)] + [Stop(c)],
                 s.(running := s.running - {id}, cache := s.cache - {id}))
  {
    var s := After(LIFE, es);
    DownSteps(s, c, id, None);
    Extend3(LIFE, es, BeginDown(c, id), Delete(c), Stop(c));
  }

  /** A timer that is due does the same, and is used up. */
  lemma TimerAlone(es: seq<Event>, c: CallId, t: Timer)
    requires IsRun(LIFE, es) && c !in After(LIFE, es).ups && c !in After(LIFE, es).downs
    requires t in After(LIFE, es).timers && t.due <= After(LIFE, es).now
    ensures var s := After(LIFE, es);
            Reaches(LIFE, es, es + [Fire(c, t)] + [Delete(c)] + [Stop(c)],
                 s.(running := s.running - {t.id}, cache := s.cache - {t.id}, timers := s.timers - multiset{t}))
  {
    var s := After(LIFE, es);
    DownSteps(s.(timers := s.timers - multiset{t}), c, t.id, Some(t.due));
    Extend3(LIFE, es, Fire(c, t), Delete(c), Stop(c));
  }
}
