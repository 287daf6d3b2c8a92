/**
 `K8sService` of `src/manager/k8s.service.ts`: the methods of one call among any number of
 other calls.  Every method is proved to produce exactly its own requests, in order, woven
 into a run of the `Cluster` protocol; the theorems about runs then hold of its executions.
 */
module K8sServices {
  import opened Runs
  import opened Cluster
  import AgentManagers

  datatype Stage = AtPod | AtService
  datatype Result<T> = Success(value: T) | Failure(at: Stage)

  function Actor(e: Event): int { e.c }

  /** The event of a request that may also not be carried out. */
  function Request(reply: Reply, c: CallId, done: Event): Event {
    if reply.NotDone? then Fail(c) else done
  }

  /** Whether the agent has a pod, or a service, when the events of `t` have taken place. */
  ghost predicate HasPod(t: seq<Event>, id: AgentId) { id in After(K8S, t).pods }

  ghost predicate HasService(t: seq<Event>, id: AgentId) { id in After(K8S, t).services }

  /** The cluster, with the calls suspended on it. */
  class CoreV1Api {
    var pods: map<AgentId, Uid>
    var services: map<AgentId, Uid>
    var calls: map<CallId, Call>
    var nextUid: Uid
    ghost var trace: seq<Event>

    function Now(): State
      reads this
    {
      State(pods, services, calls, nextUid)
    }

    ghost predicate Valid()
      reads this
    {
      IsRun(K8S, trace) && After(K8S, trace) == Now()
    }

    constructor ()
      ensures Valid() && trace == []
    {
      pods, services, calls, nextUid, trace := map[], map[], map[], 0, [];
    }

    /** One step of another call, if it can be taken now. */
    method Step(c: CallId, e: Event)
      requires Valid()
      modifies this
      ensures Valid() && trace == if e.c != c && Enabled(old(Now()), e) then old(trace) + [e] else old(trace)
      ensures c in calls <==> c in old(calls)
      ensures c in calls ==> calls[c] == old(calls[c])
    {
      if e.c != c && Enabled(Now(), e) {
        Extend(K8S, trace, e);
        var s := Next(Now(), e);
        pods, services, calls, nextUid := s.pods, s.services, s.calls, s.nextUid;
        trace := trace + [e];
      }
    }

    /** The events of `gap` that other calls can take while `c` waits. */
    method Others(c: CallId, gap: seq<Event>)
      requires Valid()
      modifies this
      ensures Valid() && trace == Admit(K8S, Actor, c, old(trace), gap)
      ensures c in calls <==> c in old(calls)
      ensures c in calls ==> calls[c] == old(calls[c])
    {
      for i := 0 to |gap|
        invariant Valid() && trace == Admit(K8S, Actor, c, old(trace), gap[..i])
        invariant c in calls <==> c in old(calls)
        invariant c in calls ==> calls[c] == old(calls[c])
      {
        AdmitStep(K8S, Actor, c, old(trace), gap, i);
        Step(c, gap[i]);
      }
      assert gap[..|gap|] == gap;
    }

    method Enter(c: CallId, gap: seq<Event>, call: Call)
      requires Valid() && c !in calls && (call.Starting? || call.Stopping?)
      modifies this
      ensures Valid() && c in calls && calls[c] == call
      ensures trace == Act(K8S, Actor, c, old(trace), gap, if call.Starting? then BeginStart(c, call.id) else BeginStop(c, call.id))
    {
      Others(c, gap);
      ghost var e := if call.Starting? then BeginStart(c, call.id) else BeginStop(c, call.id);
      Extend(K8S, trace, e);
      calls := calls[c := call];
      trace := trace + [e];
    }

    // The requests: the other calls run until the cluster gets to this one.

    method CreateNamespacedPod(c: CallId, gap: seq<Event>, reply: Reply) returns (ok: bool)
      requires Valid() && c in calls && calls[c].Starting?
      modifies this
      ensures Valid() && trace == Act(K8S, Actor, c, old(trace), gap, Request(reply, c, CreatePod(c, reply.Lost?)))
      ensures ok <==> reply.Answered? && !HasPod(Admit(K8S, Actor, c, old(trace), gap), old(calls[c].id))
      ensures ok ==> c in calls && calls[c].PodMade? && calls[c].id == old(calls[c].id)
      ensures !ok ==> c !in calls
    {
      Others(c, gap);
      var id := calls[c].id;
      ghost var e := Request(reply, c, CreatePod(c, reply.Lost?));
      ghost var before := Now();
      assert Enabled(before, e);
      Extend(K8S, trace, e);
      trace := trace + [e];
      ok := reply.Answered? && id !in pods;
      calls := if ok then calls[c := PodMade(id, nextUid)] else calls - {c};
      if !reply.NotDone? && id !in pods {
        pods, nextUid := pods[id := nextUid], nextUid + 1;
      }
      assert Now() == Next(before, e);
    }

    method CreateNamespacedService(c: CallId, gap: seq<Event>, reply: Reply) returns (ok: bool)
      requires Valid() && c in calls && calls[c].PodMade?
      modifies this
      ensures Valid() && trace == Act(K8S, Actor, c, old(trace), gap, Request(reply, c, CreateService(c, reply.Lost?)))
      ensures ok <==> reply.Answered?
      ensures c !in calls && (ok ==> old(calls[c].id) in pods && old(calls[c].id) in services)
    {
      Others(c, gap);
      SecondStepMeetsItsOwnPod(trace, c);
      var id := calls[c].id;
      ghost var e := Request(reply, c, CreateService(c, reply.Lost?));
      ghost var before := Now();
      assert Enabled(before, e);
      Extend(K8S, trace, e);
      trace := trace + [e];
      ok := reply.Answered? && id !in services;
      if !reply.NotDone? && id !in services {
        services := services[id := calls[c].uid];
      }
      calls := calls - {c};
      assert Now() == Next(before, e);
    }

    method DeleteNamespacedService(c: CallId, gap: seq<Event>, reply: Reply) returns (ok: bool)
      requires Valid() && c in calls && calls[c].Stopping?
      modifies this
      ensures Valid() && trace == Act(K8S, Actor, c, old(trace), gap, Request(reply, c, DeleteService(c, reply.Lost?)))
      ensures ok <==> reply.Answered? && HasService(Admit(K8S, Actor, c, old(trace), gap), old(calls[c].id))
      ensures ok ==> c in calls && calls[c].ServiceGone? && calls[c].id == old(calls[c].id)
      ensures !ok ==> c !in calls
    {
      Others(c, gap);
      var id := calls[c].id;
      ghost var e := Request(reply, c, DeleteService(c, reply.Lost?));
      ghost var before := Now();
      assert Enabled(before, e);
      Extend(K8S, trace, e);
      trace := trace + [e];
      ok := reply.Answered? && id in services;
      calls := if ok then calls[c := ServiceGone(id, services[id])] else calls - {c};
      if !reply.NotDone? {
        services := services - {id};
      }
      assert Now() == Next(before, e);
    }

    method DeleteNamespacedPod(c: CallId, gap: seq<Event>, reply: Reply) returns (ok: bool)
      requires Valid() && c in calls && calls[c].ServiceGone?
      modifies this
      ensures Valid() && trace == Act(K8S, Actor, c, old(trace), gap, Request(reply, c, DeletePod(c, reply.Lost?)))
      ensures ok <==> reply.Answered?
      ensures c !in calls && (ok ==> old(calls[c].id) !in pods && old(calls[c].id) !in services)
    {
      Others(c, gap);
      SecondStepMeetsItsOwnPod(trace, c);
      var id := calls[c].id;
      ghost var e := Request(reply, c, DeletePod(c, reply.Lost?));
      ghost var before := Now();
      assert Enabled(before, e);
      Extend(K8S, trace, e);
      trace := trace + [e];
      ok := reply.Answered? && id in pods;
      if !reply.NotDone? {
        pods := pods - {id};
      }
      calls := calls - {c};
      assert Now() == Next(before, e);
    }
  }

  /** `gaps[i]` is what the other calls attempt before this call's `i`-th event, `replies` what its requests meet. */
  class K8sService {
    const kapi: CoreV1Api

    constructor (kapi: CoreV1Api)
      ensures this.kapi == kapi
    {
      this.kapi := kapi;
    }

    /** The call has taken the steps of `script`, among the events of others, and no more. */
    ghost predicate Wove(c: CallId, t: seq<Event>, gaps: seq<seq<Event>>, script: seq<Event>)
      reads kapi
    {
      kapi.trace == Weave(K8S, Actor, c, t, gaps, script) && Own(Actor, c, kapi.trace) == Own(Actor, c, t) + script
    }

    method StartAgent(c: CallId, agentId: AgentId, gaps: seq<seq<Event>>, replies: (Reply, Reply))
      returns (r: Result<AgentId>)
      requires kapi.Valid() && c !in kapi.calls && |gaps| == 3
      modifies kapi
      ensures kapi.Valid() && c !in kapi.calls
      ensures var begin, pod := BeginStart(c, agentId), Request(replies.0, c, CreatePod(c, replies.0.Lost?));
              var service := Request(replies.1, c, CreateService(c, replies.1.Lost?));
              Wove(c, old(kapi.trace), gaps, if r == Failure(AtPod) then [begin, pod] else [begin, pod, service])
      ensures r.Success? ==> r.value == agentId && agentId in kapi.pods && agentId in kapi.services
      ensures r.Success? ==> AgentManagers.TookEffectOnce(AgentManagers.K8sImage(kapi.trace), c)
      ensures r == Failure(AtService) <==> r != Failure(AtPod) && !replies.1.Answered? // never for want of the name
      ensures var asked := Admit(K8S, Actor, c, Act(K8S, Actor, c, old(kapi.trace), gaps[0], BeginStart(c, agentId)), gaps[1]);
              r == Failure(AtPod) <==> !replies.0.Answered? || HasPod(asked, agentId)
    {
      ghost var pod := Request(replies.0, c, CreatePod(c, replies.0.Lost?));
      ghost var service := Request(replies.1, c, CreateService(c, replies.1.Lost?));
      WeaveShort(K8S, Actor, c, kapi.trace, gaps, BeginStart(c, agentId), pod, service);
      kapi.Enter(c, gaps[0], Starting(agentId));
      var ok := kapi.CreateNamespacedPod(c, gaps[1], replies.0);
      if !ok {
        return Failure(AtPod);
      }
      ok := kapi.CreateNamespacedService(c, gaps[2], replies.1);
      r := if ok then Success(agentId) else Failure(AtService);
      if ok {
        AgentManagers.K8sAnswersTellTheTruth(kapi.trace, c);
      }
    }

    method StopAgent(c: CallId, id: AgentId, gaps: seq<seq<Event>>, replies: (Reply, Reply))
      returns (r: Result<()>)
      requires kapi.Valid() && c !in kapi.calls && |gaps| == 3
      modifies kapi
      ensures kapi.Valid() && c !in kapi.calls
      ensures var begin, service := BeginStop(c, id), Request(replies.0, c, DeleteService(c, replies.0.Lost?));
              var pod := Request(replies.1, c, DeletePod(c, replies.1.Lost?));
              Wove(c, old(kapi.trace), gaps, if r == Failure(AtService) then [begin, service] else [begin, service, pod])
      ensures r.Success? ==> id !in kapi.pods && id !in kapi.services
      ensures r.Success? ==> AgentManagers.TookEffectOnce(AgentManagers.K8sImage(kapi.trace), c)
      ensures r == Failure(AtPod) <==> r != Failure(AtService) && !replies.1.Answered? // never for want of the pod
      ensures var asked := Admit(K8S, Actor, c, Act(K8S, Actor, c, old(kapi.trace), gaps[0], BeginStop(c, id)), gaps[1]);
              r == Failure(AtService) <==> !replies.0.Answered? || !HasService(asked, id)
    {
      ghost var service := Request(replies.0, c, DeleteService(c, replies.0.Lost?));
      ghost var pod := Request(replies.1, c, DeletePod(c, replies.1.Lost?));
      WeaveShort(K8S, Actor, c, kapi.trace, gaps, BeginStop(c, id), service, pod);
      kapi.Enter(c, gaps[0], Stopping(id));
      var ok := kapi.DeleteNamespacedService(c, gaps[1], replies.0);
      if !ok {
        return Failure(AtService);
      }
      ok := kapi.DeleteNamespacedPod(c, gaps[2], replies.1);
      r := if ok then Success(()) else Failure(AtPod);
      if ok {
        AgentManagers.K8sAnswersTellTheTruth(kapi.trace, c);
      }
    }
  }
}
