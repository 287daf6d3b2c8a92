/**
 `AgentManagerService` of `src/manager/agent.manager.service.ts`: the methods of one call among
 any number of others, each proved to produce one complete call of the `Manager` protocol,
 woven into a run.
 */
module ManagerServices {
  import opened Runs
  import opened Manager
  import opened ManagerDeadlines

  function Actor(e: Event): int {
    match e
    case Tick(_) => -1
    case _ => e.c
  }

  /** The clock, the containers, the cache and the timers, with the calls suspended on them. */
  class Host {
    var now: nat
    var running: set<AgentId>
    var cache: map<AgentId, Expiry>
    var timers: multiset<Timer>
    var ups: map<CallId, Up>
    var downs: map<CallId, Down>
    ghost var trace: seq<Event>

    function Now(): State
      reads this
    {
      State(now, running, cache, timers, ups, downs)
    }

    ghost predicate Valid()
      reads this
    {
      IsRun(LIFE, trace) && After(LIFE, trace) == Now()
    }

    constructor ()
      ensures Valid() && trace == []
    {
      now, running, cache, timers, ups, downs, trace := 0, {}, map[], multiset{}, map[], map[], [];
    }

    ghost predicate KeptSince(c: CallId, oldUps: map<CallId, Up>, oldDowns: map<CallId, Down>)
      reads this
    {
      && (c in ups <==> c in oldUps) && (c in ups ==> ups[c] == oldUps[c])
      && (c in downs <==> c in oldDowns) && (c in downs ==> downs[c] == oldDowns[c])
    }

    /** One step of another call or of the clock, if it can be taken now. */
    method Step(c: CallId, e: Event)
      requires Valid()
      modifies this
      ensures Valid() && trace == if Actor(e) != c && Enabled(old(Now()), e) then old(trace) + [e] else old(trace)
      ensures KeptSince(c, old(ups), old(downs))
    {
      if Actor(e) != c && Enabled(Now(), e) {
        Extend(LIFE, trace, e);
        NextKeeps(Now(), e, c);
        var s := Next(Now(), e);
        now, running, cache, timers, ups, downs := s.now, s.running, s.cache, s.timers, s.ups, s.downs;
        trace := trace + [e];
        assert Now() == s;
      }
    }

    /** The events of `gap` that can take place while `c` waits. */
    method Others(c: CallId, gap: seq<Event>)
      requires Valid()
      modifies this
      ensures Valid() && trace == Admit(LIFE, Actor, c, old(trace), gap) && old(trace) <= trace
      ensures KeptSince(c, old(ups), old(downs))
    {
      for i := 0 to |gap|
        invariant Valid() && trace == Admit(LIFE, Actor, c, old(trace), gap[..i]) && old(trace) <= trace
        invariant KeptSince(c, old(ups), old(downs))
      {
        AdmitStep(LIFE, Actor, c, old(trace), gap, i);
        Step(c, gap[i]);
      }
      assert gap[..|gap|] == gap;
    }

    /** Spin-up `c` moves on, or ends. */
    method Move(c: CallId, e: Event, stage: Option<UpStage>, owes: bool)
      requires Valid() && c in ups && Actor(e) == c && Enabled(Now(), e)
      requires Next(Now(), e) == Now().(
                 ups := if stage.Some? then ups[c := ups[c].(stage := stage.value, owes := owes)] else ups - {c})
      modifies this`ups, this`trace
      ensures Valid() && trace == old(trace) + [e] && Now() == Next(old(Now()), e)
    {
      Extend(LIFE, trace, e);
      ups := if stage.Some? then ups[c := ups[c].(stage := stage.value, owes := owes)] else ups - {c};
      trace := trace + [e];
    }

    /** Spin-down `c` takes a step, which changes the entry and the container of its agent. */
    method Descend(c: CallId, e: Event, cached: map<AgentId, Expiry>, up: set<AgentId>, downs': map<CallId, Down>)
      requires Valid() && Enabled(Now(), e) && Actor(e) == c
      requires Next(Now(), e) == Now().(cache := cached, running := up, downs := downs')
      modifies this`cache, this`running, this`downs, this`trace
      ensures Valid() && trace == old(trace) + [e] && downs == downs' && running == up && cache == cached
    {
      ghost var before := Now();
      Extend(LIFE, trace, e);
      cache, running, downs := cached, up, downs';
      trace := trace + [e];
      assert Now() == Next(before, e);
    }

    /** The timer is set, if there is to be one, and spin-up `c` ends. */
    method Arm(c: CallId)
      requires Valid() && c in ups && ups[c].stage.Cached?
      modifies this`timers, this`ups, this`trace
      ensures Valid() && trace == old(trace) + [Event.Arm(c)] && ups == old(ups) - {c}
      ensures timers == old(timers) + NewTimers(old(ups[c].id), old(ups[c].ttl), now)
    {
      ghost var before := Now();
      Extend(LIFE, trace, Event.Arm(c));
      timers := timers + NewTimers(ups[c].id, ups[c].ttl, now);
      ups := ups - {c};
      trace := trace + [Event.Arm(c)];
      assert Now() == Next(before, Event.Arm(c));
    }
  }

  /** What the awaits of a spin-up meet: `true` where the call does not throw. */
  datatype Outcome = Outcome(start: Reply, get: bool, add: bool, readBack: bool, connect: bool, write: bool)

  /** What a spin-up finds on its way: a fresh container, its entry in the cache, and how long its entries are kept. */
  datatype Path = Path(started: bool, cached: bool, back: bool, added: Expiry, kept: Expiry)

  function ConnectSteps(c: CallId, autoConnect: bool, o: Outcome): seq<Event> {
    if autoConnect && !o.connect then [Abort(c)] else []
  }

  function BackSteps(c: CallId, autoConnect: bool, o: Outcome, back: bool): seq<Event> {
    if !o.readBack then [Abort(c)] else [ReadBack(c)] + if back then ConnectSteps(c, autoConnect, o) else []
  }

  function AddSteps(c: CallId, autoConnect: bool, o: Outcome, p: Path): seq<Event> {
    if !o.add then [Abort(c)]
    else [Add(c, p.added)] + BackSteps(c, autoConnect, o, p.back)
  }

  function HandleSteps(c: CallId, autoConnect: bool, o: Outcome, p: Path): seq<Event> {
    if !o.get then [Abort(c)]
    else [Look(c)] + if p.cached then ConnectSteps(c, autoConnect, o) else AddSteps(c, autoConnect, o, p)
  }

  /** `handleAlreadyRunningContainer` returns. */
  predicate Handled(autoConnect: bool, o: Outcome, p: Path) {
    o.get && (p.cached || (o.add && o.readBack && p.back)) && (autoConnect ==> o.connect)
  }

  function FinishSteps(c: CallId, o: Outcome, p: Path): seq<Event> {
    if o.write then [Write(c, p.kept), Arm(c)] else [Abort(c)]
  }

  function RecoverSteps(c: CallId, autoConnect: bool, o: Outcome, p: Path): seq<Event> {
    HandleSteps(c, autoConnect, o, p) + if Handled(autoConnect, o, p) then FinishSteps(c, o, p) else []
  }

  /** All events of a spin-up after its beginning. */
  function UpSteps(c: CallId, autoConnect: bool, o: Outcome, p: Path): seq<Event> {
    [Start(c, o.start)] +
    if p.started then FinishSteps(c, o, p) else RecoverSteps(c, autoConnect, o, p)
  }

  /** All events of a spin-down after its beginning. */
  function DownSteps(c: CallId, del: bool, stop: bool): seq<Event> {
    if del then [Delete(c), if stop then Stop(c) else GiveUp(c)] else [GiveUp(c)]
  }

  /** `gaps[i]` is what the others attempt before this call's `i`-th event. */
  class AgentManagerService {
    const host: Host

    constructor (host: Host)
      ensures this.host == host
    {
      this.host := host;
    }

    // `IAgentManager`, its containers started and stopped in one step each.

    ghost predicate RunsAfter(t: seq<Event>, id: AgentId) { id in After(LIFE, t).running }

    method StartAgent(c: CallId, gap: seq<Event>, reply: Reply) returns (ok: bool)
      requires host.Valid() && c in host.ups && host.ups[c].stage.Begun?
      modifies host
      ensures host.Valid() && Acted(LIFE, Actor, c, old(host.trace), gap, Start(c, reply), host.trace) && c in host.ups
      ensures host.ups[c].id == old(host.ups[c].id) && host.ups[c].ttl == old(host.ups[c].ttl)
      ensures host.ups[c].stage == if ok then Started else Refused
      ensures ok <==> reply.Answered? && !RunsAfter(Admit(LIFE, Actor, c, old(host.trace), gap), host.ups[c].id)
      ensures ok ==> host.ups[c].owes
      ensures !reply.NotDone? ==> host.ups[c].id in host.running
    {
      host.Others(c, gap);
      var u := host.ups[c];
      ghost var before := host.Now();
      Extend(LIFE, host.trace, Start(c, reply));
      host.trace := host.trace + [Start(c, reply)];
      ok := reply.Answered? && u.id !in host.running;
      var started := !reply.NotDone? && u.id !in host.running;
      host.ups := host.ups[c := u.(stage := if ok then Started else Refused, owes := started)];
      if started {
        host.running := host.running + {u.id};
      }
      assert host.Now() == Next(before, Start(c, reply));
    }

    method StopAgent(c: CallId, gap: seq<Event>, ok: bool)
      requires host.Valid() && c in host.downs && host.downs[c].Deleted?
      modifies host
      ensures host.Valid() && c !in host.downs
      ensures Acted(LIFE, Actor, c, old(host.trace), gap, if ok then Stop(c) else GiveUp(c), host.trace)
      ensures ok ==> old(host.downs[c].id) !in host.running
    {
      host.Others(c, gap);
      var up := if ok then host.running - {host.downs[c].id} else host.running;
      host.Descend(c, if ok then Stop(c) else GiveUp(c), host.cache, up, host.downs - {c});
    }

    /** How long the store keeps an entry: `negative` is its answer to a negative TTL. */
    function Keeps(ttl: Ttl, negative: Expiry): (kept: Expiry)
      reads host
      ensures MayKeep(ttl, host.now, kept)
    {
      match ttl
      case Infinite => Never
      case Finite(ms) => if ms >= 0 then At(host.now + ms + 1000) else negative
    }

    /** `setAgentCache`, when the spin-up is at one of the two places that call it. */
    method SetAgentCache(c: CallId, gap: seq<Event>, negative: Expiry, ok: bool)
      requires host.Valid() && c in host.ups
      requires host.ups[c].stage.Missing? || host.ups[c].stage.Started? || host.ups[c].stage.Found?
      modifies host
      ensures host.Valid() && old(host.trace) <= host.trace
      ensures !ok ==> c !in host.ups && Acted(LIFE, Actor, c, old(host.trace), gap, Abort(c), host.trace)
      ensures ok ==> c in host.ups && SameAgent(old(host.ups[c]), host.ups[c])
      ensures ok ==> if old(host.ups[c].stage.Missing?) then host.ups[c].stage.Added? else host.ups[c].stage.Cached?
      ensures ok ==> old(host.ups[c].id) in host.cache
      ensures ok ==> var kept := host.cache[old(host.ups[c].id)];
                     MayKeep(old(host.ups[c].ttl), host.now, kept)
                     && Acted(LIFE, Actor, c, old(host.trace), gap,
                              if old(host.ups[c].stage.Missing?) then Add(c, kept) else Write(c, kept), host.trace)
    {
      host.Others(c, gap);
      if !ok {
        host.Move(c, Abort(c), None, false);
        return;
      }
      var u := host.ups[c];
      var kept := Keeps(u.ttl, negative);
      ghost var before := host.Now();
      ghost var e := if u.stage.Missing? then Add(c, kept) else Write(c, kept);
      assert Enabled(before, e);
      Extend(LIFE, host.trace, e);
      var wrote := if u.stage.Found? && u.stage.first.Some? then u.stage.first.value else host.now;
      host.cache := host.cache[u.id := kept];
      host.ups := host.ups[c := u.(stage := if u.stage.Missing? then Added(host.now) else Cached(wrote), owes := false)];
      host.trace := host.trace + [e];
      assert host.Now() == Next(before, e);
    }

    ghost predicate SameAgent(a: Up, b: Up) { a.id == b.id && a.ttl == b.ttl }

    /** `setSpinDownJob` */
    method SetSpinDownJob(c: CallId, gap: seq<Event>)
      requires host.Valid() && c in host.ups && host.ups[c].stage.Cached?
      modifies host
      ensures host.Valid() && c !in host.ups
      ensures Acted(LIFE, Actor, c, old(host.trace), gap, Arm(c), host.trace)
      ensures Armed(old(host.ups[c].id), old(host.ups[c].ttl))
    {
      host.Others(c, gap);
      ghost var others := host.trace;
      host.Arm(c);
      assert host.trace[..|host.trace| - 1] == others;
    }

    /** The last step has set exactly the timer that this TTL calls for, and nothing else has changed among the timers. */
    ghost predicate Armed(id: AgentId, ttl: Ttl)
      reads host
    {
      host.trace != [] &&
      host.timers == After(LIFE, host.trace[..|host.trace| - 1]).timers + NewTimers(id, ttl, host.now)
    }

    /** The same of a TTL as it was asked for: none for 0 or less, an hour when there is none, at once when it is too long. */
    ghost predicate ArmedAsAsked(id: AgentId, ttl: Option<int>)
      reads host
    {
      host.trace != [] &&
      var before := After(LIFE, host.trace[..|host.trace| - 1]).timers;
      var wait := if ttl.Some? then ttl.value else 3600000;
      if wait <= 0 then host.timers == before
      else host.timers == before + multiset{Timer(id, host.now + if wait <= 2147483647 then wait else 1)}
    }

    lemma AskedIsArmed(id: AgentId, ttl: Option<int>)
      requires Armed(id, NormaliseTtl(ttl))
      ensures ArmedAsAsked(id, ttl)
    {
      var before := After(LIFE, host.trace[..|host.trace| - 1]).timers;
      assert before + multiset{} == before;
    }

    /** The call has taken the steps of `script`, among the events of others, and no more. */
    ghost predicate Wove(c: CallId, t: seq<Event>, gaps: seq<seq<Event>>, script: seq<Event>)
      reads host
    {
      host.trace == Weave(LIFE, Actor, c, t, gaps, script) && t <= host.trace
    }

    /** `handleAlreadyRunningContainer`: make sure the agent is in the cache, adding it if need be.  `used` counts its events. */
    method HandleAlreadyRunningContainer(c: CallId, autoConnect: bool, gaps: seq<seq<Event>>, negative: Expiry, o: Outcome)
      returns (ok: bool, used: nat, ghost p: Path)
      requires host.Valid() && c in host.ups && host.ups[c].stage.Refused? && |gaps| >= 4
      modifies host
      ensures host.Valid() && Wove(c, old(host.trace), gaps, HandleSteps(c, autoConnect, o, p))
      ensures ok == Handled(autoConnect, o, p) && used == |HandleSteps(c, autoConnect, o, p)|
      ensures if ok then c in host.ups && host.ups[c].stage.Found? && SameAgent(old(host.ups[c]), host.ups[c]) else c !in host.ups
    {
      p := Path(false, true, false, Never, Never);
      WeaveFirst(LIFE, Actor, c, host.trace, gaps, if o.get then Look(c) else Abort(c), []);
      ghost var t := host.trace;
      ok := LookUp(c, gaps[0], o.get);
      if !ok {
        used := 1;
        return;
      }
      if host.ups[c].stage.Missing? {
        ok, used, p := AddAgent(c, autoConnect, gaps[1..], negative, o);
        WeaveFirst(LIFE, Actor, c, t, gaps, Look(c), AddSteps(c, autoConnect, o, p));
      } else {
        ok, used := Connect(c, autoConnect, gaps[1..], o);
        WeaveFirst(LIFE, Actor, c, t, gaps, Look(c), ConnectSteps(c, autoConnect, o));
      }
      used := used + 1;
    }

    /** The agent is not cached: add it and read it back. */
    method AddAgent(c: CallId, autoConnect: bool, gaps: seq<seq<Event>>, negative: Expiry, o: Outcome)
      returns (ok: bool, used: nat, ghost p: Path)
      requires host.Valid() && c in host.ups && host.ups[c].stage.Missing? && |gaps| >= 3
      modifies host
      ensures host.Valid() && !p.cached && !p.started
      ensures Wove(c, old(host.trace), gaps, AddSteps(c, autoConnect, o, p))
      ensures ok == (o.add && o.readBack && p.back && (autoConnect ==> o.connect)) && used == |AddSteps(c, autoConnect, o, p)|
      ensures if ok then c in host.ups && host.ups[c].stage.Found? && SameAgent(old(host.ups[c]), host.ups[c]) else c !in host.ups
    {
      ghost var t := host.trace;
      p := Path(false, false, false, Never, Never);
      ghost var id := host.ups[c].id;
      SetAgentCache(c, gaps[0], negative, o.add);
      if !o.add {
        WeaveFirst(LIFE, Actor, c, t, gaps, Abort(c), []);
        return false, 1, p;
      }
      p := p.(added := host.cache[id]);
      ghost var back;
      ok, used, back := ReadItBack(c, autoConnect, gaps[1..], o);
      p := p.(back := back);
      WeaveFirst(LIFE, Actor, c, t, gaps, Add(c, p.added), BackSteps(c, autoConnect, o, back));
      used := used + 1;
    }

    method ReadItBack(c: CallId, autoConnect: bool, gaps: seq<seq<Event>>, o: Outcome)
      returns (ok: bool, used: nat, ghost back: bool)
      requires host.Valid() && c in host.ups && host.ups[c].stage.Added? && |gaps| >= 2
      modifies host
      ensures host.Valid() && Wove(c, old(host.trace), gaps, BackSteps(c, autoConnect, o, back))
      ensures ok == (o.readBack && back && (autoConnect ==> o.connect)) && used == |BackSteps(c, autoConnect, o, back)|
      ensures if ok then c in host.ups && host.ups[c].stage.Found? && SameAgent(old(host.ups[c]), host.ups[c]) else c !in host.ups
    {
      ghost var t := host.trace;
      WeaveFirst(LIFE, Actor, c, t, gaps, if o.readBack then ReadBack(c) else Abort(c), []);
      ok := LookAgain(c, gaps[0], o.readBack);
      used, back := 1, ok;
      if ok {
        ok, used := Connect(c, autoConnect, gaps[1..], o);
        used := used + 1;
        WeaveFirst(LIFE, Actor, c, t, gaps, ReadBack(c), ConnectSteps(c, autoConnect, o));
      }
    }

    /** `createConnection`, if it is asked for. */
    method Connect(c: CallId, autoConnect: bool, gaps: seq<seq<Event>>, o: Outcome) returns (ok: bool, used: nat)
      requires host.Valid() && c in host.ups && host.ups[c].stage.Found? && |gaps| >= 1
      modifies host
      ensures host.Valid() && Wove(c, old(host.trace), gaps, ConnectSteps(c, autoConnect, o))
      ensures ok == (autoConnect ==> o.connect) && used == |ConnectSteps(c, autoConnect, o)|
      ensures if ok then c in host.ups && host.ups[c] == old(host.ups[c]) else c !in host.ups
    {
      ok, used := true, 0;
      if autoConnect && !o.connect {
        WeaveFirst(LIFE, Actor, c, host.trace, gaps, Abort(c), []);
        host.Others(c, gaps[0]);
        host.Move(c, Abort(c), None, false);
        ok, used := false, 1;
      }
    }

    /** The first `cache.get` */
    method LookUp(c: CallId, gap: seq<Event>, get: bool) returns (ok: bool)
      requires host.Valid() && c in host.ups && host.ups[c].stage.Refused?
      modifies host
      ensures host.Valid() && ok == get
      ensures Acted(LIFE, Actor, c, old(host.trace), gap, if get then Look(c) else Abort(c), host.trace)
      ensures ok ==> c in host.ups && SameAgent(old(host.ups[c]), host.ups[c])
      ensures ok ==> host.ups[c].stage == if Live(host.Now(), host.ups[c].id) then Found(None) else Missing
      ensures !ok ==> c !in host.ups
    {
      host.Others(c, gap);
      ok := get;
      if get {
        var u := host.ups[c];
        var cached := u.id in host.cache && (host.cache[u.id].At? ==> host.now < host.cache[u.id].time);
        host.Move(c, Look(c), Some(if cached then Found(None) else Missing), u.owes);
      } else {
        host.Move(c, Abort(c), None, false);
      }
    }

    /** The second `cache.get`: the first exception is thrown again if the entry has gone already. */
    method LookAgain(c: CallId, gap: seq<Event>, get: bool) returns (ok: bool)
      requires host.Valid() && c in host.ups && host.ups[c].stage.Added?
      modifies host
      ensures host.Valid()
      ensures Acted(LIFE, Actor, c, old(host.trace), gap, if get then ReadBack(c) else Abort(c), host.trace)
      ensures ok ==> get && c in host.ups && SameAgent(old(host.ups[c]), host.ups[c]) && host.ups[c].stage.Found?
      ensures ok ==> Live(host.Now(), host.ups[c].id)
      ensures !ok ==> c !in host.ups
      ensures !ok && get ==> !Live(host.Now(), old(host.ups[c].id))
    {
      host.Others(c, gap);
      var u := host.ups[c];
      ok := get && u.id in host.cache && (host.cache[u.id].At? ==> host.now < host.cache[u.id].time);
      if !get {
        host.Move(c, Abort(c), None, false);
      } else {
        host.Move(c, ReadBack(c), if ok then Some(Found(Some(u.stage.wrote))) else None, false);
      }
    }

    /** `spinUpAgent` up to the point where the agent is cached and its timer set. */
    method SpinUpAgent(c: CallId, id: AgentId, ttl: Option<int>, autoConnect: bool,
                       gaps: seq<seq<Event>>, negative: Expiry, o: Outcome) returns (ok: bool, ghost p: Path)
      requires host.Valid() && c !in host.ups && c !in host.downs && |gaps| == 7
      modifies host
      ensures host.Valid() && c !in host.ups
      ensures Wove(c, old(host.trace), gaps, [BeginUp(c, id, NormaliseTtl(ttl))] + UpSteps(c, autoConnect, o, p))
      ensures ok == (o.write && (p.started || Handled(autoConnect, o, p)))
      ensures var begun := Act(LIFE, Actor, c, old(host.trace), gaps[0], BeginUp(c, id, NormaliseTtl(ttl)));
              p.started <==> o.start.Answered? && !RunsAfter(Admit(LIFE, Actor, c, begun, gaps[1]), id)
      ensures ok ==> ArmedAsAsked(id, ttl)
    {
      ghost var t := host.trace;
      Enter(c, id, ttl, gaps[0]);
      ok, p := Proceed(c, autoConnect, gaps[1..], negative, o);
      if ok {
        AskedIsArmed(id, ttl);
      }
      WeaveFirst(LIFE, Actor, c, t, gaps, BeginUp(c, id, NormaliseTtl(ttl)), UpSteps(c, autoConnect, o, p));
    }

    /** What follows the configuration of the agent. */
    method Proceed(c: CallId, autoConnect: bool, gaps: seq<seq<Event>>, negative: Expiry, o: Outcome)
      returns (ok: bool, ghost p: Path)
      requires host.Valid() && c in host.ups && host.ups[c].stage.Begun? && |gaps| == 6
      modifies host
      ensures host.Valid() && Wove(c, old(host.trace), gaps, UpSteps(c, autoConnect, o, p)) && c !in host.ups
      ensures ok == (o.write && (p.started || Handled(autoConnect, o, p)))
      ensures p.started <==> o.start.Answered? && !RunsAfter(Admit(LIFE, Actor, c, old(host.trace), gaps[0]), old(host.ups[c].id))
      ensures ok ==> Armed(old(host.ups[c].id), old(host.ups[c].ttl))
    {
      ghost var t := host.trace;
      var started := StartAgent(c, gaps[0], o.start);
      if started {
        ghost var kept;
        ok, kept := CacheAndArm(c, gaps[1..], negative, o);
        p := Path(true, true, false, Never, kept);
        WeaveFirst(LIFE, Actor, c, t, gaps, Start(c, o.start), FinishSteps(c, o, p));
      } else {
        ok, p := Recover(c, autoConnect, gaps[1..], negative, o);
        WeaveFirst(LIFE, Actor, c, t, gaps, Start(c, o.start), RecoverSteps(c, autoConnect, o, p));
      }
    }

    /** The `catch` of `startAgent`, and what follows it. */
    method Recover(c: CallId, autoConnect: bool, gaps: seq<seq<Event>>, negative: Expiry, o: Outcome)
      returns (ok: bool, ghost p: Path)
      requires host.Valid() && c in host.ups && host.ups[c].stage.Refused? && |gaps| == 5
      modifies host
      ensures host.Valid() && Wove(c, old(host.trace), gaps, RecoverSteps(c, autoConnect, o, p)) && c !in host.ups
      ensures ok == (o.write && Handled(autoConnect, o, p)) && !p.started
      ensures ok ==> Armed(old(host.ups[c].id), old(host.ups[c].ttl))
    {
      ghost var t := host.trace;
      var used;
      ok, used, p := HandleAlreadyRunningContainer(c, autoConnect, gaps, negative, o);
      p := p.(started := false);
      if ok {
        ghost var kept;
        ok, kept := CacheAndArm(c, gaps[used..], negative, o);
        p := p.(kept := kept);
        WeaveBoth(LIFE, Actor, c, t, gaps, HandleSteps(c, autoConnect, o, p), FinishSteps(c, o, p));
      } else {
        assert HandleSteps(c, autoConnect, o, p) + [] == HandleSteps(c, autoConnect, o, p);
      }
    }

    /** The last two steps of a spin-up. */
    method CacheAndArm(c: CallId, gaps: seq<seq<Event>>, negative: Expiry, o: Outcome) returns (ok: bool, ghost kept: Expiry)
      requires host.Valid() && c in host.ups && |gaps| >= 2
      requires host.ups[c].stage.Started? || host.ups[c].stage.Found?
      modifies host
      ensures host.Valid() && c !in host.ups && ok == o.write
      ensures Wove(c, old(host.trace), gaps, if o.write then [Write(c, kept), Arm(c)] else [Abort(c)])
      ensures ok ==> Armed(old(host.ups[c].id), old(host.ups[c].ttl))
    {
      ghost var t, id := host.trace, host.ups[c].id;
      SetAgentCache(c, gaps[0], negative, o.write);
      ok, kept := o.write, Never;
      if ok {
        kept := host.cache[id];
        SetSpinDownJob(c, gaps[1]);
        WeaveTwo(LIFE, Actor, c, t, gaps, Write(c, kept), Arm(c));
      } else {
        WeaveFirst(LIFE, Actor, c, t, gaps, Abort(c), []);
      }
    }

    method Enter(c: CallId, id: AgentId, ttl: Option<int>, gap: seq<Event>)
      requires host.Valid() && c !in host.ups && c !in host.downs
      modifies host
      ensures host.Valid() && c in host.ups && host.ups[c] == Up(id, NormaliseTtl(ttl), Begun, false)
      ensures Acted(LIFE, Actor, c, old(host.trace), gap, BeginUp(c, id, NormaliseTtl(ttl)), host.trace)
    {
      host.Others(c, gap);
      ghost var e := BeginUp(c, id, NormaliseTtl(ttl));
      Extend(LIFE, host.trace, e);
      host.ups := host.ups[c := Up(id, NormaliseTtl(ttl), Begun, false)];
      host.trace := host.trace + [e];
    }

    /** `spinDownAgent`, asked for explicitly: exceptions are caught, so it always ends. */
    method SpinDownAgent(c: CallId, id: AgentId, gaps: seq<seq<Event>>, del: bool, stop: bool)
      requires host.Valid() && c !in host.ups && c !in host.downs && |gaps| == 3
      modifies host
      ensures host.Valid() && c !in host.downs
      ensures Wove(c, old(host.trace), gaps, [BeginDown(c, id)] + DownSteps(c, del, stop))
      ensures del && stop ==> id !in host.running
      ensures del ==> Emptied(Act(LIFE, Actor, c, Act(LIFE, Actor, c, old(host.trace), gaps[0], BeginDown(c, id)), gaps[1], Delete(c)), id)
    {
      ghost var t := host.trace;
      EnterDown(c, id, gaps[0]);
      CarryOut(c, gaps[1..], del, stop);
      WeaveFirst(LIFE, Actor, c, t, gaps, BeginDown(c, id), DownSteps(c, del, stop));
    }

    method EnterDown(c: CallId, id: AgentId, gap: seq<Event>)
      requires host.Valid() && c !in host.ups && c !in host.downs
      modifies host
      ensures host.Valid() && Acted(LIFE, Actor, c, old(host.trace), gap, BeginDown(c, id), host.trace)
      ensures c in host.downs && host.downs[c] == Ordered(id, None)
    {
      host.Others(c, gap);
      ghost var before := host.Now();
      Extend(LIFE, host.trace, BeginDown(c, id));
      host.downs := host.downs[c := Ordered(id, None)];
      host.trace := host.trace + [BeginDown(c, id)];
      assert host.Now() == Next(before, BeginDown(c, id));
    }

    /** A timer that is due starts the same spin-down. */
    method TimerFires(c: CallId, timer: Timer, gaps: seq<seq<Event>>, del: bool, stop: bool)
      requires host.Valid() && c !in host.ups && c !in host.downs && |gaps| == 2
      requires timer in host.timers && timer.due <= host.now
      modifies host
      ensures host.Valid() && c !in host.downs
      ensures Wove(c, old(host.trace) + [Fire(c, timer)], gaps, DownSteps(c, del, stop))
      ensures del && stop ==> timer.id !in host.running
      ensures del ==> Emptied(Act(LIFE, Actor, c, old(host.trace) + [Fire(c, timer)], gaps[0], Delete(c)), timer.id)
    {
      Extend(LIFE, host.trace, Fire(c, timer));
      host.timers := host.timers - multiset{timer};
      host.downs := host.downs[c := Ordered(timer.id, Some(timer.due))];
      host.trace := host.trace + [Fire(c, timer)];
      CarryOut(c, gaps, del, stop);
    }

    /** The body of `spinDownAgent`, also run by a timer that has fired. */
    method CarryOut(c: CallId, gaps: seq<seq<Event>>, del: bool, stop: bool)
      requires host.Valid() && c in host.downs && host.downs[c].Ordered? && |gaps| == 2
      modifies host
      ensures host.Valid() && Wove(c, old(host.trace), gaps, DownSteps(c, del, stop)) && c !in host.downs
      ensures del && stop ==> old(host.downs[c].id) !in host.running
      ensures del ==> Emptied(Act(LIFE, Actor, c, old(host.trace), gaps[0], Delete(c)), old(host.downs[c].id))
    {
      ghost var t, id := host.trace, host.downs[c].id;
      DeleteEntry(c, gaps[0], del);
      if del {
        ghost var gone := host.trace;
        StopAgent(c, gaps[1], stop);
        StaysEmpty(gone, host.trace, id);
        WeaveTwo(LIFE, Actor, c, t, gaps, Delete(c), if stop then Stop(c) else GiveUp(c));
      } else {
        WeaveFirst(LIFE, Actor, c, t, gaps, GiveUp(c), []);
      }
    }

    /** After `gone` the agent is not cached, nor is it now unless a spin-up of it has written since. */
    ghost predicate Emptied(gone: seq<Event>, id: AgentId)
      reads host
    {
      && gone <= host.trace && id !in After(LIFE, gone).cache
      && (UnwrittenSince(gone, host.trace, id) ==> id !in host.cache)
    }

    lemma StaysEmpty(gone: seq<Event>, es: seq<Event>, id: AgentId)
      requires IsRun(LIFE, es) && gone <= es && id !in After(LIFE, gone).cache
      ensures UnwrittenSince(gone, es, id) ==> id !in After(LIFE, es).cache
    {
      if UnwrittenSince(gone, es, id) {
        UncachedUntilWritten(gone, es, id);
      }
    }

    method DeleteEntry(c: CallId, gap: seq<Event>, del: bool)
      requires host.Valid() && c in host.downs && host.downs[c].Ordered?
      modifies host
      ensures host.Valid() && Acted(LIFE, Actor, c, old(host.trace), gap, if del then Delete(c) else GiveUp(c), host.trace)
      ensures if del then c in host.downs && host.downs[c] == Deleted(old(host.downs[c].id)) else c !in host.downs
      ensures del ==> host.cache == After(LIFE, Admit(LIFE, Actor, c, old(host.trace), gap)).cache - {old(host.downs[c].id)}
    {
      host.Others(c, gap);
      var id := host.downs[c].id;
      if del {
        host.Descend(c, Delete(c), host.cache - {id}, host.running, host.downs[c := Deleted(id)]);
      } else {
        host.Descend(c, GiveUp(c), host.cache, host.running, host.downs - {c});
      }
    }
  }

  // ---------------------------------------------------------------- waiting for an agent

  /** One round of the ping loop: the time it takes over the fixed delay, and whether the status is good. */
  datatype Probe = Probe(extra: nat, up: bool)

  function Elapsed(probes: nat -> Probe, rounds: nat): nat {
    if rounds == 0 then 0 else Elapsed(probes, rounds - 1) + 1000 + probes(rounds - 1).extra
  }

  /**
   `pingConnectionWithRetry`: for every duration and whatever the agent answers it ends, after at
   most one check for each started second; it succeeds exactly when a check it made succeeded,
   stops at the first that does, and gives up only when the duration is over.
   */
  method PingConnectionWithRetry(durationMS: int, probes: nat -> Probe) returns (ok: bool, checks: nat)
    ensures ok <==> exists i | 0 <= i < checks :: probes(i).up
    ensures forall i | 0 <= i < checks - 1 :: !probes(i).up
    ensures checks <= if durationMS <= 0 then 0 else (durationMS + 999) / 1000
    ensures !ok ==> Elapsed(probes, checks) >= durationMS
    ensures checks > 0 ==> Elapsed(probes, checks - 1) < durationMS
  {
    checks := 0;
    var elapsed := 0;
    while durationMS > elapsed
      invariant elapsed == Elapsed(probes, checks) >= 1000 * checks
      invariant checks > 0 ==> Elapsed(probes, checks - 1) < durationMS && 1000 * (checks - 1) < durationMS
      invariant forall i | 0 <= i < checks :: !probes(i).up
      decreases durationMS - elapsed
    {
      var probe := probes(checks);
      elapsed := elapsed + 1000 + probe.extra;
      checks := checks + 1;
      if probe.up {
        return true, checks;
      }
    }
    ok := false;
  }

  lemma NextKeeps(s: State, e: Event, c: CallId)
    requires Actor(e) != c
    ensures var t := Next(s, e);
            && (c in t.ups <==> c in s.ups) && (c in t.ups ==> t.ups[c] == s.ups[c])
            && (c in t.downs <==> c in s.downs) && (c in t.downs ==> t.downs[c] == s.downs[c])
  {
  }
}
