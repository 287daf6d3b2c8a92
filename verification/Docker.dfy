/**
 Starting and stopping agents on Docker, `src/manager/docker.service.ts`.

 `startAgent` creates a container under the agent's name and then starts it; `stopAgent` stops
 it, and a container that stops is removed (`AutoRemove`).  A container that was created but
 never started cannot be stopped and is never removed.
 */
module Docker {
  import opened Runs

  type AgentId = string
  type CallId = nat
  type Uid = nat // the container's own id, one for each that was ever created

  datatype Container = Container(uid: Uid, up: bool)

  /** A call in flight, by the request it is about to make. */
  datatype Call =
    | Starting(id: AgentId)        // startAgent, before createContainer
    | Made(id: AgentId, uid: Uid)  // startAgent, before container.start
    | Stopping(id: AgentId)        // stopAgent, before container.stop

  datatype State = State(containers: map<AgentId, Container>, calls: map<CallId, Call>, nextUid: Uid)

  /** `lost`: the request is carried out but reported as failed.  `Fail`: it is not carried out. */
  datatype Event =
    | BeginStart(c: CallId, id: AgentId)
    | BeginStop(c: CallId, id: AgentId)
    | Create(c: CallId, lost: bool)
    | Start(c: CallId, lost: bool)
    | Crash(c: CallId)              // the container fails to start and is removed
    | Stop(c: CallId, lost: bool)
    | Fail(c: CallId)
    | Exit(id: AgentId)             // a container ends by itself and is removed

  predicate Up(s: State, id: AgentId) { id in s.containers && s.containers[id].up }

  predicate Enabled(s: State, e: Event) {
    match e
    case BeginStart(c, _) => c !in s.calls
    case BeginStop(c, _) => c !in s.calls
    case Create(c, _) => c in s.calls && s.calls[c].Starting?
    case Start(c, _) => c in s.calls && s.calls[c].Made?
    case Crash(c) => c in s.calls && s.calls[c].Made?
    case Stop(c, _) => c in s.calls && s.calls[c].Stopping?
    case Fail(c) => c in s.calls
    case Exit(id) => Up(s, id)
  }

  /** The agent's present container is `uid`: `container.start` names the container by its own id. */
  predicate Current(s: State, id: AgentId, uid: Uid) {
    id in s.containers && s.containers[id].uid == uid
  }

  function Next(s: State, e: Event): State {
    if !Enabled(s, e) then s else
    match e
    case BeginStart(c, id) => s.(calls := s.calls[c := Starting(id)])
    case BeginStop(c, id) => s.(calls := s.calls[c := Stopping(id)])
    case Create(c, lost) =>
      var id := s.calls[c].id;
      if id in s.containers then s.(calls := s.calls - {c})
      else s.(containers := s.containers[id := Container(s.nextUid, false)],
              nextUid := s.nextUid + 1,
              calls := if lost then s.calls - {c} else s.calls[c := Made(id, s.nextUid)])
    case Start(c, _) =>
      var Made(id, uid) := s.calls[c];
      s.(containers := if Current(s, id, uid) then s.containers[id := Container(uid, true)] else s.containers,
         calls := s.calls - {c})
    case Crash(c) =>
      var Made(id, uid) := s.calls[c];
      s.(containers := if Current(s, id, uid) then s.containers - {id} else s.containers, calls := s.calls - {c})
    case Stop(c, _) => // refused unless the container is running
      var id := s.calls[c].id;
      s.(containers := if Up(s, id) then s.containers - {id} else s.containers, calls := s.calls - {c})
    case Fail(c) => s.(calls := s.calls - {c})
    case Exit(id) => s.(containers := s.containers - {id})
  }

  ghost const DAEMON: System<State, Event> := System(State(map[], map[], 0), Enabled, Next)

  // ---------------------------------------------------------------- who is responsible for a created container

  /** The agents whose container event `e` leaves created with nobody to start it. */
  ghost function Dropped(s: State, e: Event): set<AgentId> {
    match e
    case Create(c, lost) => if lost && Enabled(s, e) && s.calls[c].id !in s.containers then {s.calls[c].id} else {}
    case Fail(c) => if c in s.calls && s.calls[c].Made? then {s.calls[c].id} else {}
    case _ => {}
  }

  ghost function Leaked(es: seq<Event>): set<AgentId> {
    if es == [] then {}
    else var front := es[..|es| - 1]; Leaked(front) + Dropped(After(DAEMON, front), es[|es| - 1])
  }

  predicate Starts(call: Call, id: AgentId) { call.Made? && call.id == id }

  ghost function Starters(s: State, id: AgentId): set<CallId> {
    set c | c in s.calls && Starts(s.calls[c], id)
  }

  /** Exactly the containers that are created and not started have a call that will start them, unless they leaked. */
  ghost predicate Accounted(s: State, leaked: set<AgentId>, id: AgentId) {
    if id in s.containers && !s.containers[id].up && id !in leaked then
      exists c :: OnlyStarter(s, id, c)
    else
      (id in leaked ==> id in s.containers && !s.containers[id].up) && Starters(s, id) == {}
  }

  ghost predicate OnlyStarter(s: State, id: AgentId, c: CallId) {
    Starters(s, id) == {c} && c in s.calls && s.calls[c].Made? && Current(s, id, s.calls[c].uid)
  }

  lemma StarterStep(s: State, leaked: set<AgentId>, e: Event, id: AgentId, c: CallId)
    requires Enabled(s, e) && id in s.containers && !s.containers[id].up && id !in leaked && OnlyStarter(s, id, c)
    ensures Accounted(Next(s, e), leaked + Dropped(s, e), id)
  {
    var t := Next(s, e);
    assert c in Starters(s, id);
    assert forall d | d in s.calls && s.calls[d].Made? && s.calls[d].id == id :: d in Starters(s, id);
    if e.Exit? || e.c != c {
      assert forall d | d in Starters(t, id) :: d in Starters(s, id);
      assert OnlyStarter(t, id, c);
    } else {
      assert forall d | d in Starters(t, id) :: d in Starters(s, id) && d != c;
      assert Starters(t, id) == {};
    }
  }

  lemma IdleStep(s: State, leaked: set<AgentId>, e: Event, id: AgentId)
    requires Enabled(s, e) && Accounted(s, leaked, id) && Starters(s, id) == {}
    ensures Accounted(Next(s, e), leaked + Dropped(s, e), id)
  {
    var t := Next(s, e);
    if e.Create? && id in t.containers && id !in s.containers && !e.lost {
      assert forall d | d in Starters(t, id) :: d == e.c || d in Starters(s, id);
      assert e.c in Starters(t, id) && Starters(t, id) == {e.c};
      assert OnlyStarter(t, id, e.c);
    } else {
      assert forall d | d in Starters(t, id) :: d in Starters(s, id);
      assert forall d | d in s.calls && s.calls[d].Made? && s.calls[d].id == id :: d in Starters(s, id);
    }
  }

  lemma {:induction false} AlwaysAccounted(es: seq<Event>, id: AgentId)
    requires IsRun(DAEMON, es)
    ensures Accounted(After(DAEMON, es), Leaked(es), id)
  {
    if es != [] {
      var front := es[..|es| - 1];
      var s := After(DAEMON, front);
      AlwaysAccounted(front, id);
      if c :| OnlyStarter(s, id, c) {
        StarterStep(s, Leaked(front), es[|es| - 1], id, c);
      } else {
        IdleStep(s, Leaked(front), es[|es| - 1], id);
      }
    }
  }

  /**
   In every run a container that is created and not started has exactly one call that will start
   it or has leaked, never both; an absent or running container has neither.
   */
  lemma CreatedHasOneStarter(es: seq<Event>, id: AgentId)
    requires IsRun(DAEMON, es)
    ensures var s := After(DAEMON, es); var n := |Starters(s, id)| + if id in Leaked(es) then 1 else 0;
            n == if id in s.containers && !s.containers[id].up then 1 else 0
  {
    AlwaysAccounted(es, id);
  }

  /** So `container.start` always finds the container that its call has created, still to be started. */
  lemma StartMeetsItsOwnContainer(es: seq<Event>, c: CallId)
    requires IsRun(DAEMON, es) && c in After(DAEMON, es).calls && After(DAEMON, es).calls[c].Made?
    ensures var s := After(DAEMON, es); var Made(id, uid) := s.calls[c];
            Current(s, id, uid) && !Up(s, id)
  {
    var s := After(DAEMON, es);
    AlwaysAccounted(es, s.calls[c].id);
    assert c in Starters(s, s.calls[c].id);
  }

  // ---------------------------------------------------------------- one call alone

  ghost function StartAlone(es: seq<Event>, c: CallId, id: AgentId): seq<Event> {
    es + [BeginStart(c, id)] + [Create(c, false)] + [Start(c, false)]
  }

  ghost function StopAlone(es: seq<Event>, c: CallId, id: AgentId): seq<Event> {
    es + [BeginStop(c, id)] + [Stop(c, false)]
  }

  lemma StartSteps(s: State, c: CallId, id: AgentId)
    requires c !in s.calls && id !in s.containers
    ensures var s1 := Next(s, BeginStart(c, id)); var s2 := Next(s1, Create(c, false));
            && Enabled(s1, Create(c, false)) && Enabled(s2, Start(c, false))
            && Next(s2, Start(c, false))
               == s.(containers := s.containers[id := Container(s.nextUid, true)], nextUid := s.nextUid + 1)
  {
    var s2 := Next(Next(s, BeginStart(c, id)), Create(c, false));
    assert s2.calls - {c} == s.calls;
    assert s2.containers[id := Container(s.nextUid, true)] == s.containers[id := Container(s.nextUid, true)];
  }

  /** After any history an uninterrupted start of an agent without a container adds exactly its running container. */
  lemma StartAloneRuns(es: seq<Event>, c: CallId, id: AgentId)
    requires IsRun(DAEMON, es) && c !in After(DAEMON, es).calls && id !in After(DAEMON, es).containers
    ensures IsRun(DAEMON, StartAlone(es, c, id))
    ensures var s := After(DAEMON, es);
            After(DAEMON, StartAlone(es, c, id))
            == s.(containers := s.containers[id := Container(s.nextUid, true)], nextUid := s.nextUid + 1)
  {
    StartSteps(After(DAEMON, es), c, id);
    Extend3(DAEMON, es, BeginStart(c, id), Create(c, false), Start(c, false));
  }

  lemma StopSteps(s: State, c: CallId, id: AgentId)
    requires c !in s.calls && Up(s, id)
    ensures var s1 := Next(s, BeginStop(c, id));
            Enabled(s1, Stop(c, false)) && Next(s1, Stop(c, false)) == s.(containers := s.containers - {id})
  {
    assert Next(s, BeginStop(c, id)).calls - {c} == s.calls;
  }

  /** An uninterrupted stop of a running agent removes exactly its container. */
  lemma StopAloneRemoves(es: seq<Event>, c: CallId, id: AgentId)
    requires IsRun(DAEMON, es) && c !in After(DAEMON, es).calls && Up(After(DAEMON, es), id)
    ensures IsRun(DAEMON, StopAlone(es, c, id))
    ensures After(DAEMON, StopAlone(es, c, id)) == After(DAEMON, es).(containers := After(DAEMON, es).containers - {id})
  {
    StopSteps(After(DAEMON, es), c, id);
    Extend(DAEMON, es, BeginStop(c, id));
    Extend(DAEMON, es + [BeginStop(c, id)], Stop(c, false));
  }

  // ---------------------------------------------------------------- stuck containers

  /** Created, not started, and no call to start it. */
  ghost predicate Stuck(s: State, id: AgentId) {
    id in s.containers && !s.containers[id].up && Starters(s, id) == {}
  }

  lemma StuckExactlyWhenDropped(es: seq<Event>, id: AgentId)
    requires IsRun(DAEMON, es)
    ensures Stuck(After(DAEMON, es), id) <==> id in Leaked(es)
  {
    AlwaysAccounted(es, id);
  }

  lemma StuckStep(s: State, e: Event, id: AgentId)
    requires Stuck(s, id)
    ensures Stuck(Next(s, e), id) && Next(s, e).containers[id] == s.containers[id]
  {
    var t := Next(s, e);
    assert forall d | d in s.calls && s.calls[d].Made? && s.calls[d].id == id :: d in Starters(s, id);
    assert forall d | d in Starters(t, id) :: d in Starters(s, id);
  }

  /** A stuck container blocks its agent through every later start and stop: it never runs again. */
  lemma {:induction false} StuckForever(es: seq<Event>, more: seq<Event>, id: AgentId)
    requires IsRun(DAEMON, es + more) && Stuck(After(DAEMON, es), id)
    ensures Stuck(After(DAEMON, es + more), id)
    ensures After(DAEMON, es + more).containers[id] == After(DAEMON, es).containers[id]
    decreases |more|
  {
    if more == [] {
      assert es + more == es;
    } else {
      SplitLast(DAEMON, es, more);
      StuckForever(es, more[..|more| - 1], id);
      StuckStep(After(DAEMON, es + more[..|more| - 1]), more[|more| - 1], id);
    }
  }

  /** A lost answer to `createContainer` leaves a stuck container, and so does a failure before the start. */
  lemma EitherFaultSticks(c: CallId, id: AgentId) returns (lost: seq<Event>, failed: seq<Event>)
    ensures lost == [BeginStart(c, id), Create(c, true)] && IsRun(DAEMON, lost) && Stuck(After(DAEMON, lost), id)
    ensures failed == [BeginStart(c, id), Create(c, false), Fail(c)] && IsRun(DAEMON, failed) && Stuck(After(DAEMON, failed), id)
  {
    lost := [BeginStart(c, id), Create(c, true)];
    failed := [BeginStart(c, id), Create(c, false), Fail(c)];
    Extend(DAEMON, [], BeginStart(c, id));
    Extend(DAEMON, [BeginStart(c, id)], Create(c, true));
    Extend(DAEMON, [BeginStart(c, id)], Create(c, false));
    Extend(DAEMON, [BeginStart(c, id), Create(c, false)], Fail(c));
    assert [] + [BeginStart(c, id)] == [BeginStart(c, id)];
    assert [BeginStart(c, id)] + [Create(c, true)] == lost;
    assert [BeginStart(c, id)] + [Create(c, false)] + [Fail(c)] == failed;
  }
}
