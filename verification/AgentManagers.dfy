/**
 `IAgentManager` (`src/manager/agent.manager.interface.ts`), the interface behind which the
 agency starts and stops agents: a set of running agents, on which every `startAgent` and
 `stopAgent` takes effect at one moment between its call and its return, or not at all.
 Kubernetes and Docker each need several requests for a call; both are proved to refine it.
 */
module AgentManagers {
  import opened Runs
  import Cluster
  import Docker

  type AgentId = string
  type CallId = nat

  datatype Job = Start | Stop

  datatype Call = Call(job: Job, id: AgentId, done: bool)

  datatype State = State(running: set<AgentId>, calls: map<CallId, Call>)

  datatype Event =
    | Begin(c: CallId, job: Job, id: AgentId)
    | Effect(c: CallId)
    | End(c: CallId, ok: bool) // a call that throws may have taken effect, one that returns has
    | Exit(id: AgentId)        // the agent ends by itself

  predicate Enabled(s: State, e: Event) {
    match e
    case Begin(c, _, _) => c !in s.calls
    case Effect(c) =>
      c in s.calls && !s.calls[c].done && (s.calls[c].job.Start? <==> s.calls[c].id !in s.running)
    case End(c, ok) => c in s.calls && (ok ==> s.calls[c].done)
    case Exit(id) => id in s.running
  }

  function Next(s: State, e: Event): State {
    if !Enabled(s, e) then s else
    match e
    case Begin(c, job, id) => s.(calls := s.calls[c := Call(job, id, false)])
    case Effect(c) =>
      var call := s.calls[c];
      State(if call.job.Start? then s.running + {call.id} else s.running - {call.id},
            s.calls[c := call.(done := true)])
    case End(c, _) => s.(calls := s.calls - {c})
    case Exit(id) => s.(running := s.running - {id})
  }

  ghost const INTERFACE: System<State, Event> := System(State({}, map[]), Enabled, Next)

  function Actor(e: Event): int {
    match e
    case Exit(_) => -1
    case _ => e.c
  }

  // ---------------------------------------------------------------- what a caller can rely on

  /** What call `c` has done so far ends with its beginning, and with its effect if it has taken effect. */
  ghost predicate History(own: seq<Event>, c: CallId, call: Call) {
    var begin := Begin(c, call.job, call.id);
    if call.done then |own| >= 2 && own[|own| - 2..] == [begin, Effect(c)] else EndsWith(own, begin)
  }

  lemma OwnStep(es: seq<Event>, c: CallId)
    requires es != []
    ensures Own(Actor, c, es)
         == Own(Actor, c, es[..|es| - 1]) + if Actor(es[|es| - 1]) == c then [es[|es| - 1]] else []
  {
  }

  lemma HistoryStep(own: seq<Event>, s: State, e: Event, c: CallId)
    requires Enabled(s, e) && c in Next(s, e).calls && (c in s.calls ==> History(own, c, s.calls[c]))
    ensures History(own + if Actor(e) == c then [e] else [], c, Next(s, e).calls[c])
  {
    if Actor(e) != c {
      assert own + [] == own;
    }
  }

  lemma {:induction false} CallHistory(es: seq<Event>, c: CallId)
    requires IsRun(INTERFACE, es) && c in After(INTERFACE, es).calls
    ensures History(Own(Actor, c, es), c, After(INTERFACE, es).calls[c])
  {
    var front, e := es[..|es| - 1], es[|es| - 1];
    if c in After(INTERFACE, front).calls {
      CallHistory(front, c);
    }
    OwnStep(es, c);
    HistoryStep(Own(Actor, c, front), After(INTERFACE, front), e, c);
  }

  /** The call's own events end with its beginning, its effect and its successful end. */
  ghost predicate TookEffectOnce(es: seq<Event>, c: CallId) {
    var own := Own(Actor, c, es);
    var n := |own|;
    n >= 3 && own[n - 3].Begin? && own[n - 2] == Effect(c) && own[n - 1] == End(c, true)
  }

  /** A call that returns took effect exactly once, after it began. */
  lemma ReturnedCallsTookEffectOnce(es: seq<Event>, c: CallId)
    requires IsRun(INTERFACE, es) && EndsWith(es, End(c, true))
    ensures TookEffectOnce(es, c)
  {
    OwnStep(es, c);
    CallHistory(es[..|es| - 1], c);
  }

  /** Event `e` makes the agent run. */
  predicate Launches(s: State, e: Event, id: AgentId) {
    e.Effect? && e.c in s.calls && s.calls[e.c] == Call(Start, id, false)
  }

  /** Event `e` ends the agent. */
  predicate Ends(s: State, e: Event, id: AgentId) {
    e == Exit(id) || (e.Effect? && e.c in s.calls && s.calls[e.c] == Call(Stop, id, false))
  }

  lemma RunningStep(s: State, e: Event, id: AgentId)
    requires id in s.running
    ensures id in Next(s, e).running || Ends(s, e, id)
  {
  }

  /** A running agent runs until an event ends it. */
  lemma {:induction false} RunsUntilEnded(es: seq<Event>, i: nat, j: nat, id: AgentId)
    requires IsRun(INTERFACE, es) && i <= j <= |es| && id in After(INTERFACE, es[..i]).running
    ensures id in After(INTERFACE, es[..j]).running
         || exists k | i <= k < j :: Ends(After(INTERFACE, es[..k]), es[k], id)
    decreases j
  {
    if i < j {
      RunsUntilEnded(es, i, j - 1, id);
      Prefix(INTERFACE, es, j - 1);
      if id in After(INTERFACE, es[..j - 1]).running {
        RunningStep(After(INTERFACE, es[..j - 1]), es[j - 1], id);
      }
    }
  }

  /** Between two starts of one agent that take effect, something ends it: an agent is never started twice over. */
  lemma StartsAreSeparated(es: seq<Event>, i: nat, j: nat, id: AgentId)
    requires IsRun(INTERFACE, es) && i < j < |es|
    requires Launches(After(INTERFACE, es[..i]), es[i], id) && Launches(After(INTERFACE, es[..j]), es[j], id)
    ensures exists k | i < k < j :: Ends(After(INTERFACE, es[..k]), es[k], id)
  {
    Prefix(INTERFACE, es, i);
    Prefix(INTERFACE, es, j);
    RunsUntilEnded(es, i + 1, j, id);
  }

  // ---------------------------------------------------------------- Kubernetes

  function OfK8sCall(call: Cluster.Call): Call {
    match call
    case Starting(id) => Call(Start, id, false)
    case PodMade(id, _) => Call(Start, id, false)
    case Stopping(id) => Call(Stop, id, false)
    case ServiceGone(id, _) => Call(Stop, id, true)
  }

  function OfK8sCalls(calls: map<CallId, Cluster.Call>): map<CallId, Call> {
    map c | c in calls :: OfK8sCall(calls[c])
  }

  lemma K8sCallsChange(calls: map<CallId, Cluster.Call>, c: CallId, call: Cluster.Call)
    ensures OfK8sCalls(calls[c := call]) == OfK8sCalls(calls)[c := OfK8sCall(call)]
    ensures OfK8sCalls(calls - {c}) == OfK8sCalls(calls) - {c}
  {
  }

  /** An agent runs when it has its service. */
  function OfK8s(s: Cluster.State): State {
    State(s.services.Keys, OfK8sCalls(s.calls))
  }

  /** A start takes effect when its service is created, a stop when the service is deleted. */
  ghost function K8sEvents(s: Cluster.State, e: Cluster.Event): seq<Event> {
    if !Cluster.Enabled(s, e) then [] else
    match e
    case BeginStart(c, id) => [Begin(c, Start, id)]
    case BeginStop(c, id) => [Begin(c, Stop, id)]
    case CreatePod(c, lost) => if lost || s.calls[c].id in s.pods then [End(c, false)] else []
    case CreateService(c, lost) => if s.calls[c].id in s.services then [End(c, false)] else [Effect(c), End(c, !lost)]
    case DeleteService(c, lost) =>
      if s.calls[c].id !in s.services then [End(c, false)] else if lost then [Effect(c), End(c, false)] else [Effect(c)]
    case DeletePod(c, lost) => [End(c, !lost && s.calls[c].id in s.pods)]
    case Fail(c) => [End(c, false)]
  }

  ghost function K8sImage(es: seq<Cluster.Event>): seq<Event> {
    if es == [] then []
    else K8sImage(es[..|es| - 1]) + K8sEvents(After(Cluster.K8S, es[..|es| - 1]), es[|es| - 1])
  }

  /** From `s` the interface takes `es` and is then in `t`. */
  ghost predicate Leads(s: State, es: seq<Event>, t: State) {
    Takes(INTERFACE, s, es) && Apply(INTERFACE, s, es) == t
  }

  lemma Ended(s: State, c: CallId, ok: bool)
    requires c in s.calls && (ok ==> s.calls[c].done)
    ensures Leads(s, [End(c, ok)], State(s.running, s.calls - {c}))
  {
    ApplyOne(INTERFACE, s, End(c, ok));
  }

  lemma EffectAndEnd(s: State, c: CallId, ok: bool, running: set<AgentId>)
    requires Enabled(s, Effect(c)) && running == Next(s, Effect(c)).running
    ensures Leads(s, [Effect(c), End(c, ok)], State(running, s.calls - {c}))
  {
    ApplyTwo(INTERFACE, s, Effect(c), End(c, ok));
    assert Next(s, Effect(c)).calls - {c} == s.calls - {c};
  }

  lemma OneStep(s: State, e: Event)
    requires Enabled(s, e)
    ensures Leads(s, [e], Next(s, e))
  {
    ApplyOne(INTERFACE, s, e);
  }

  lemma K8sCallEnds(s: Cluster.State, c: CallId, ok: bool)
    requires c in s.calls && (ok ==> s.calls[c].ServiceGone?)
    ensures Leads(OfK8s(s), [End(c, ok)], State(s.services.Keys, OfK8sCalls(s.calls - {c})))
  {
    K8sCallsChange(s.calls, c, s.calls[c]);
    Ended(OfK8s(s), c, ok);
  }

  lemma K8sServiceCreated(s: Cluster.State, c: CallId, lost: bool)
    requires var e := Cluster.CreateService(c, lost); Cluster.Enabled(s, e) && s.calls[c].id !in s.services
    ensures Leads(OfK8s(s), [Effect(c), End(c, !lost)], OfK8s(Cluster.Next(s, Cluster.CreateService(c, lost))))
  {
    var t := Cluster.Next(s, Cluster.CreateService(c, lost));
    K8sCallsChange(s.calls, c, s.calls[c]);
    assert t.services.Keys == s.services.Keys + {s.calls[c].id};
    EffectAndEnd(OfK8s(s), c, !lost, t.services.Keys);
  }

  lemma K8sServiceDeleted(s: Cluster.State, c: CallId, lost: bool)
    requires var e := Cluster.DeleteService(c, lost); Cluster.Enabled(s, e) && s.calls[c].id in s.services
    ensures Leads(OfK8s(s), if lost then [Effect(c), End(c, false)] else [Effect(c)],
                  OfK8s(Cluster.Next(s, Cluster.DeleteService(c, lost))))
  {
    var t, id := Cluster.Next(s, Cluster.DeleteService(c, lost)), s.calls[c].id;
    K8sCallsChange(s.calls, c, Cluster.ServiceGone(id, s.services[id]));
    assert t.services.Keys == s.services.Keys - {id};
    if lost {
      EffectAndEnd(OfK8s(s), c, false, t.services.Keys);
    } else {
      OneStep(OfK8s(s), Effect(c));
    }
  }

  lemma K8sBegins(s: Cluster.State, c: CallId, call: Cluster.Call)
    requires c !in s.calls && (call.Starting? || call.Stopping?)
    ensures Leads(OfK8s(s), [Begin(c, if call.Starting? then Start else Stop, call.id)],
                  State(s.services.Keys, OfK8sCalls(s.calls[c := call])))
  {
    K8sCallsChange(s.calls, c, call);
    OneStep(OfK8s(s), Begin(c, if call.Starting? then Start else Stop, call.id));
  }

  lemma K8sStepRefines(s: Cluster.State, e: Cluster.Event)
    requires Cluster.Enabled(s, e)
    ensures Leads(OfK8s(s), K8sEvents(s, e), OfK8s(Cluster.Next(s, e)))
  {
    match e
    case BeginStart(c, id) => K8sBegins(s, c, Cluster.Starting(id));
    case BeginStop(c, id) => K8sBegins(s, c, Cluster.Stopping(id));
    case CreatePod(c, lost) =>
      if lost || s.calls[c].id in s.pods {
        K8sCallEnds(s, c, false);
      } else {
        K8sCallsChange(s.calls, c, Cluster.PodMade(s.calls[c].id, s.nextUid));
        assert OfK8s(Cluster.Next(s, e)).calls == OfK8s(s).calls;
      }
    case CreateService(c, lost) =>
      if s.calls[c].id in s.services { K8sCallEnds(s, c, false); } else { K8sServiceCreated(s, c, lost); }
    case DeleteService(c, lost) =>
      if s.calls[c].id in s.services { K8sServiceDeleted(s, c, lost); } else { K8sCallEnds(s, c, false); }
    case DeletePod(c, lost) => K8sCallEnds(s, c, !lost && s.calls[c].id in s.pods);
    case Fail(c) => K8sCallEnds(s, c, false);
  }

  /** Every run of the cluster, with all its overlaps and faults, is a run of the interface. */
  lemma {:induction false} K8sRefinesInterface(es: seq<Cluster.Event>)
    requires IsRun(Cluster.K8S, es)
    ensures IsRun(INTERFACE, K8sImage(es)) && After(INTERFACE, K8sImage(es)) == OfK8s(After(Cluster.K8S, es))
  {
    if es == [] {
      assert OfK8s(Cluster.K8S.init) == State({}, map[]);
    } else {
      var front := es[..|es| - 1];
      var s := After(Cluster.K8S, front);
      K8sRefinesInterface(front);
      Append(INTERFACE, K8sImage(front), K8sEvents(s, es[|es| - 1]));
      K8sStepRefines(s, es[|es| - 1]);
    }
  }

  /** A call to Kubernetes whose last request is answered took effect exactly once. */
  lemma K8sAnswersTellTheTruth(es: seq<Cluster.Event>, c: CallId)
    requires IsRun(Cluster.K8S, es)
    requires EndsWith(es, Cluster.CreateService(c, false)) || EndsWith(es, Cluster.DeletePod(c, false))
    ensures TookEffectOnce(K8sImage(es), c)
  {
    Cluster.SecondStepMeetsItsOwnPod(es[..|es| - 1], c);
    K8sRefinesInterface(es);
    ReturnedCallsTookEffectOnce(K8sImage(es), c);
  }

  // ---------------------------------------------------------------- Docker

  function OfDockerCall(call: Docker.Call): Call {
    match call
    case Starting(id) => Call(Start, id, false)
    case Made(id, _) => Call(Start, id, false)
    case Stopping(id) => Call(Stop, id, false)
  }

  function OfDockerCalls(calls: map<CallId, Docker.Call>): map<CallId, Call> {
    map c | c in calls :: OfDockerCall(calls[c])
  }

  lemma DockerCallsChange(calls: map<CallId, Docker.Call>, c: CallId, call: Docker.Call)
    ensures OfDockerCalls(calls[c := call]) == OfDockerCalls(calls)[c := OfDockerCall(call)]
    ensures OfDockerCalls(calls - {c}) == OfDockerCalls(calls) - {c}
  {
  }

  ghost function Running(containers: map<AgentId, Docker.Container>): set<AgentId> {
    set id | id in containers && containers[id].up
  }

  /** An agent runs when its container is up. */
  ghost function OfDocker(s: Docker.State): State {
    State(Running(s.containers), OfDockerCalls(s.calls))
  }

  ghost function DockerEvents(s: Docker.State, e: Docker.Event): seq<Event> {
    if !Docker.Enabled(s, e) then [] else
    match e
    case BeginStart(c, id) => [Begin(c, Start, id)]
    case BeginStop(c, id) => [Begin(c, Stop, id)]
    case Create(c, lost) => if lost || s.calls[c].id in s.containers then [End(c, false)] else []
    case Start(c, lost) => [Effect(c), End(c, !lost)]
    case Crash(c) => [End(c, false)]
    case Stop(c, lost) => if Docker.Up(s, s.calls[c].id) then [Effect(c), End(c, !lost)] else [End(c, false)]
    case Fail(c) => [End(c, false)]
    case Exit(id) => [Exit(id)]
  }

  ghost function DockerImage(es: seq<Docker.Event>): seq<Event> {
    if es == [] then []
    else DockerImage(es[..|es| - 1]) + DockerEvents(After(Docker.DAEMON, es[..|es| - 1]), es[|es| - 1])
  }

  lemma DockerCallEnds(s: Docker.State, c: CallId)
    requires c in s.calls
    ensures Leads(OfDocker(s), [End(c, false)], State(Running(s.containers), OfDockerCalls(s.calls - {c})))
  {
    DockerCallsChange(s.calls, c, s.calls[c]);
    Ended(OfDocker(s), c, false);
  }

  lemma DockerBegins(s: Docker.State, c: CallId, call: Docker.Call)
    requires c !in s.calls && (call.Starting? || call.Stopping?)
    ensures Leads(OfDocker(s), [Begin(c, if call.Starting? then Start else Stop, call.id)],
                  State(Running(s.containers), OfDockerCalls(s.calls[c := call])))
  {
    DockerCallsChange(s.calls, c, call);
    OneStep(OfDocker(s), Begin(c, if call.Starting? then Start else Stop, call.id));
  }

  lemma RunningChange(containers: map<AgentId, Docker.Container>, id: AgentId, x: Docker.Container)
    ensures Running(containers[id := x]) == if x.up then Running(containers) + {id} else Running(containers) - {id}
    ensures Running(containers - {id}) == Running(containers) - {id}
  {
  }

  lemma DockerTakesEffect(s: Docker.State, e: Docker.Event)
    requires e.Start? || (e.Stop? && e.c in s.calls && Docker.Up(s, s.calls[e.c].id))
    requires Docker.Enabled(s, e) && (e.Start? ==> ToBeStarted(s, e.c))
    ensures Leads(OfDocker(s), [Effect(e.c), End(e.c, !e.lost)], OfDocker(Docker.Next(s, e)))
  {
    var t, call := Docker.Next(s, e), s.calls[e.c];
    DockerCallsChange(s.calls, e.c, call);
    RunningChange(s.containers, call.id, if e.Start? then Docker.Container(call.uid, true) else s.containers[call.id]);
    EffectAndEnd(OfDocker(s), e.c, !e.lost, Running(t.containers));
  }

  /** The container that call `c` has made is there, not yet started. */
  ghost predicate ToBeStarted(s: Docker.State, c: CallId)
    requires c in s.calls && s.calls[c].Made?
  {
    Docker.Current(s, s.calls[c].id, s.calls[c].uid) && !Docker.Up(s, s.calls[c].id)
  }

  lemma DockerStepRefines(s: Docker.State, e: Docker.Event)
    requires Docker.Enabled(s, e) && (e.Start? || e.Crash? ==> ToBeStarted(s, e.c))
    ensures Leads(OfDocker(s), DockerEvents(s, e), OfDocker(Docker.Next(s, e)))
  {
    match e
    case BeginStart(c, id) => DockerBegins(s, c, Docker.Starting(id));
    case BeginStop(c, id) => DockerBegins(s, c, Docker.Stopping(id));
    case Create(c, lost) => DockerCreates(s, c, lost);
    case Start(c, lost) => DockerTakesEffect(s, e);
    case Crash(c) =>
      RunningChange(s.containers, s.calls[c].id, s.containers[s.calls[c].id]);
      DockerCallEnds(s, c);
      assert Running(s.containers) - {s.calls[c].id} == Running(s.containers);
    case Stop(c, lost) => if Docker.Up(s, s.calls[c].id) { DockerTakesEffect(s, e); } else { DockerCallEnds(s, c); }
    case Fail(c) => DockerCallEnds(s, c);
    case Exit(id) =>
      RunningChange(s.containers, id, s.containers[id]);
      OneStep(OfDocker(s), Exit(id));
  }

  lemma DockerCreates(s: Docker.State, c: CallId, lost: bool)
    requires Docker.Enabled(s, Docker.Create(c, lost))
    ensures Leads(OfDocker(s), DockerEvents(s, Docker.Create(c, lost)), OfDocker(Docker.Next(s, Docker.Create(c, lost))))
  {
    var id := s.calls[c].id;
    RunningChange(s.containers, id, Docker.Container(s.nextUid, false));
    assert id !in s.containers ==> Running(s.containers) - {id} == Running(s.containers);
    if lost || id in s.containers {
      DockerCallEnds(s, c);
    } else {
      DockerCallsChange(s.calls, c, Docker.Made(id, s.nextUid));
      assert OfDockerCalls(s.calls)[c := Call(Start, id, false)] == OfDockerCalls(s.calls);
    }
  }

  /** So is every run of the Docker daemon. */
  lemma {:induction false} DockerRefinesInterface(es: seq<Docker.Event>)
    requires IsRun(Docker.DAEMON, es)
    ensures IsRun(INTERFACE, DockerImage(es)) && After(INTERFACE, DockerImage(es)) == OfDocker(After(Docker.DAEMON, es))
  {
    if es == [] {
      assert OfDocker(Docker.DAEMON.init) == State({}, map[]);
    } else {
      var front, e := es[..|es| - 1], es[|es| - 1];
      var s := After(Docker.DAEMON, front);
      DockerRefinesInterface(front);
      Append(INTERFACE, DockerImage(front), DockerEvents(s, e));
      if e.Start? || e.Crash? {
        Docker.StartMeetsItsOwnContainer(front, e.c);
      }
      DockerStepRefines(s, e);
    }
  }

  /** In `s` call `c` asks Docker to stop a running container. */
  predicate StopsRunning(s: Docker.State, c: CallId) {
    c in s.calls && s.calls[c].Stopping? && Docker.Up(s, s.calls[c].id)
  }

  /** A start on Docker that is answered, or the stop of a running container, took effect exactly once. */
  lemma DockerAnswersTellTheTruth(es: seq<Docker.Event>, c: CallId)
    requires IsRun(Docker.DAEMON, es)
    requires || EndsWith(es, Docker.Start(c, false))
             || (EndsWith(es, Docker.Stop(c, false)) && StopsRunning(After(Docker.DAEMON, es[..|es| - 1]), c))
    ensures TookEffectOnce(DockerImage(es), c)
  {
    DockerRefinesInterface(es);
    ReturnedCallsTookEffectOnce(DockerImage(es), c);
  }
}
