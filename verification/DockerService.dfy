/**
 `DockerService` of `src/manager/docker.service.ts`: the methods of one call among any number of
 other calls, each proved to produce exactly its own requests, in order, woven into a run of the
 `Docker` protocol.
 */
module DockerServices {
  import opened Runs
  import opened Docker
  import AgentManagers

  datatype Stage = AtCreate | AtStart | AtStop
  datatype Result<T> = Success(value: T) | Failure(at: Stage)

  /** What becomes of `container.start`. */
  datatype Launch = Sent(reply: Reply) | Crashed

  function Actor(e: Event): int {
    match e
    case Exit(_) => -1
    case _ => e.c
  }

  /** The event of a request that may also not be carried out. */
  function Request(reply: Reply, c: CallId, done: Event): Event {
    if reply.NotDone? then Fail(c) else done
  }

  function LaunchEvent(launch: Launch, c: CallId): Event {
    if launch.Crashed? then Crash(c) else Request(launch.reply, c, Start(c, launch.reply.Lost?))
  }

  /** Whether the agent has a container, or a running one, when the events of `t` have taken place. */
  ghost predicate HasContainer(t: seq<Event>, id: AgentId) { id in After(DAEMON, t).containers }

  ghost predicate IsUp(t: seq<Event>, id: AgentId) { Up(After(DAEMON, t), id) }

  /** The Docker daemon, with the calls suspended on it. */
  class Dockerode {
    var containers: map<AgentId, Container>
    var calls: map<CallId, Call>
    var nextUid: Uid
    ghost var trace: seq<Event>

    function Now(): State
      reads this
    {
      State(containers, calls, nextUid)
    }

    ghost predicate Valid()
      reads this
    {
      IsRun(DAEMON, trace) && After(DAEMON, trace) == Now()
    }

    constructor ()
      ensures Valid() && trace == []
    {
      containers, calls, nextUid, trace := map[], map[], 0, [];
    }

    /** One step of another call or of a container, if it can be taken now. */
    method Step(c: CallId, e: Event)
      requires Valid()
      modifies this
      ensures Valid() && trace == if Actor(e) != c && Enabled(old(Now()), e) then old(trace) + [e] else old(trace)
      ensures (c in calls <==> c in old(calls)) && (c in calls ==> calls[c] == old(calls[c]))
    {
      if Actor(e) != c && Enabled(Now(), e) {
        Extend(DAEMON, trace, e);
        var s := Next(Now(), e);
        containers, calls, nextUid := s.containers, s.calls, s.nextUid;
        trace := trace + [e];
        assert Now() == s;
      }
    }

    /** The events of `gap` that can take place while `c` waits. */
    method Others(c: CallId, gap: seq<Event>)
      requires Valid()
      modifies this
      ensures Valid() && trace == Admit(DAEMON, Actor, c, old(trace), gap)
      ensures (c in calls <==> c in old(calls)) && (c in calls ==> calls[c] == old(calls[c]))
    {
      for i := 0 to |gap|
        invariant Valid() && trace == Admit(DAEMON, Actor, c, old(trace), gap[..i])
        invariant (c in calls <==> c in old(calls)) && (c in calls ==> calls[c] == old(calls[c]))
      {
        AdmitStep(DAEMON, Actor, c, old(trace), gap, i);
        Step(c, gap[i]);
      }
      assert gap[..|gap|] == gap;
    }

    method Enter(c: CallId, gap: seq<Event>, call: Call)
      requires Valid() && c !in calls && (call.Starting? || call.Stopping?)
      modifies this
      ensures Valid() && c in calls && calls[c] == call
      ensures trace == Act(DAEMON, Actor, c, old(trace), gap, if call.Starting? then BeginStart(c, call.id) else BeginStop(c, call.id))
    {
      Others(c, gap);
      ghost var e := if call.Starting? then BeginStart(c, call.id) else BeginStop(c, call.id);
      Extend(DAEMON, trace, e);
      calls := calls[c := call];
      trace := trace + [e];
    }

    method CreateContainer(c: CallId, gap: seq<Event>, reply: Reply) returns (ok: bool)
      requires Valid() && c in calls && calls[c].Starting?
      modifies this
      ensures Valid() && trace == Act(DAEMON, Actor, c, old(trace), gap, Request(reply, c, Create(c, reply.Lost?)))
      ensures ok <==> reply.Answered? && !HasContainer(Admit(DAEMON, Actor, c, old(trace), gap), old(calls[c].id))
      ensures ok ==> c in calls && calls[c].Made? && calls[c].id == old(calls[c].id)
      ensures !ok ==> c !in calls
    {
      Others(c, gap);
      var id := calls[c].id;
      ghost var e := Request(reply, c, Create(c, reply.Lost?));
      ghost var before := Now();
      assert Enabled(before, e);
      Extend(DAEMON, trace, e);
      trace := trace + [e];
      ok := reply.Answered? && id !in containers;
      calls := if ok then calls[c := Made(id, nextUid)] else calls - {c};
      if !reply.NotDone? && id !in containers {
        containers, nextUid := containers[id := Container(nextUid, false)], nextUid + 1;
      }
      assert Now() == Next(before, e);
    }

    /** `container.start`: never refused, since the container is still the one that was created. */
    method StartContainer(c: CallId, gap: seq<Event>, launch: Launch) returns (ok: bool)
      requires Valid() && c in calls && calls[c].Made?
      modifies this
      ensures Valid() && trace == Act(DAEMON, Actor, c, old(trace), gap, LaunchEvent(launch, c))
      ensures ok <==> launch == Sent(Answered)
      ensures c !in calls && (launch == Sent(Answered) || launch == Sent(Lost) ==> Up(Now(), old(calls[c].id)))
      ensures launch.Crashed? ==> old(calls[c].id) !in containers
    {
      Others(c, gap);
      StartMeetsItsOwnContainer(trace, c);
      var Made(id, uid) := calls[c];
      ghost var e := LaunchEvent(launch, c);
      ghost var before := Now();
      assert Enabled(before, e);
      Extend(DAEMON, trace, e);
      trace := trace + [e];
      ok := launch == Sent(Answered);
      if launch.Crashed? {
        containers := containers - {id};
      } else if !launch.reply.NotDone? {
        containers := containers[id := Container(uid, true)];
      }
      calls := calls - {c};
      assert Now() == Next(before, e);
    }

    method StopContainer(c: CallId, gap: seq<Event>, reply: Reply) returns (ok: bool)
      requires Valid() && c in calls && calls[c].Stopping?
      modifies this
      ensures Valid() && trace == Act(DAEMON, Actor, c, old(trace), gap, Request(reply, c, Stop(c, reply.Lost?)))
      ensures ok <==> reply.Answered? && IsUp(Admit(DAEMON, Actor, c, old(trace), gap), old(calls[c].id))
      ensures c !in calls && (ok ==> old(calls[c].id) !in containers)
      ensures reply.Answered? && !ok ==> !Up(Now(), old(calls[c].id)) // there was nothing to stop
      ensures ok ==> AgentManagers.StopsRunning(After(DAEMON, trace[..|trace| - 1]), c)
    {
      Others(c, gap);
      var id := calls[c].id;
      ghost var e := Request(reply, c, Stop(c, reply.Lost?));
      ghost var before := Now();
      assert Enabled(before, e);
      Extend(DAEMON, trace, e);
      ghost var others := trace;
      trace := trace + [e];
      ok := reply.Answered? && id in containers && containers[id].up;
      if !reply.NotDone? && id in containers && containers[id].up {
        containers := containers - {id};
      }
      calls := calls - {c};
      assert Now() == Next(before, e);
      assert trace[..|trace| - 1] == others;
    }
  }

  /** `gaps[i]` is what the others attempt before this call's `i`-th event. */
  class DockerService {
    const dockerode: Dockerode

    constructor (dockerode: Dockerode)
      ensures this.dockerode == dockerode
    {
      this.dockerode := dockerode;
    }

    /** The call has taken the steps of `script`, among the events of others, and no more. */
    ghost predicate Wove(c: CallId, t: seq<Event>, gaps: seq<seq<Event>>, script: seq<Event>)
      reads dockerode
    {
      dockerode.trace == Weave(DAEMON, Actor, c, t, gaps, script) && Own(Actor, c, dockerode.trace) == Own(Actor, c, t) + script
    }

    method StartAgent(c: CallId, agentId: AgentId, gaps: seq<seq<Event>>, reply: Reply, launch: Launch)
      returns (r: Result<AgentId>)
      requires dockerode.Valid() && c !in dockerode.calls && |gaps| == 3
      modifies dockerode
      ensures dockerode.Valid() && c !in dockerode.calls
      ensures var begin, create := BeginStart(c, agentId), Request(reply, c, Create(c, reply.Lost?));
              var start := LaunchEvent(launch, c);
              Wove(c, old(dockerode.trace), gaps, if r == Failure(AtCreate) then [begin, create] else [begin, create, start])
      ensures r.Success? ==> r.value == agentId && Up(dockerode.Now(), agentId)
      ensures r.Success? ==> AgentManagers.TookEffectOnce(AgentManagers.DockerImage(dockerode.trace), c)
      ensures r == Failure(AtStart) <==> r != Failure(AtCreate) && launch != Sent(Answered)
      ensures var asked := Admit(DAEMON, Actor, c, Act(DAEMON, Actor, c, old(dockerode.trace), gaps[0], BeginStart(c, agentId)), gaps[1]);
              r != Failure(AtStop) && (r == Failure(AtCreate) <==> !reply.Answered? || HasContainer(asked, agentId))
    {
      ghost var create, start := Request(reply, c, Create(c, reply.Lost?)), LaunchEvent(launch, c);
      WeaveShort(DAEMON, Actor, c, dockerode.trace, gaps, BeginStart(c, agentId), create, start);
      dockerode.Enter(c, gaps[0], Starting(agentId));
      var ok := dockerode.CreateContainer(c, gaps[1], reply);
      if !ok {
        return Failure(AtCreate);
      }
      ok := dockerode.StartContainer(c, gaps[2], launch);
      r := if ok then Success(agentId) else Failure(AtStart);
      if ok {
        AgentManagers.DockerAnswersTellTheTruth(dockerode.trace, c);
      }
    }

    method StopAgent(c: CallId, id: AgentId, gaps: seq<seq<Event>>, reply: Reply) returns (r: Result<()>)
      requires dockerode.Valid() && c !in dockerode.calls && |gaps| == 2
      modifies dockerode
      ensures dockerode.Valid() && c !in dockerode.calls
      ensures var begin, stop := BeginStop(c, id), Request(reply, c, Stop(c, reply.Lost?));
              Wove(c, old(dockerode.trace), gaps, [begin, stop])
      ensures r.Success? ==> id !in dockerode.containers
      ensures var asked := Admit(DAEMON, Actor, c, Act(DAEMON, Actor, c, old(dockerode.trace), gaps[0], BeginStop(c, id)), gaps[1]);
              r.Success? <==> reply.Answered? && IsUp(asked, id)
      ensures r.Success? ==> AgentManagers.TookEffectOnce(AgentManagers.DockerImage(dockerode.trace), c)
      ensures !r.Success? ==> r == Failure(AtStop) && (reply.Answered? ==> !Up(dockerode.Now(), id))
    {
      ghost var begin, stop := BeginStop(c, id), Request(reply, c, Stop(c, reply.Lost?));
      WeaveTwo(DAEMON, Actor, c, dockerode.trace, gaps, begin, stop);
      OwnOfWeave(DAEMON, Actor, c, dockerode.trace, gaps, [begin, stop]);
      dockerode.Enter(c, gaps[0], Stopping(id));
      var ok := dockerode.StopContainer(c, gaps[1], reply);
      r := if ok then Success(()) else Failure(AtStop);
      if ok {
        AgentManagers.DockerAnswersTellTheTruth(dockerode.trace, c);
      }
    }
  }
}
