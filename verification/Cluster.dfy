/**
 Starting and stopping agents on Kubernetes, `src/manager/k8s.service.ts`.

 `startAgent` creates the pod and then the service; `stopAgent` deletes the service and
 then the pod.  Any number of these calls run at once, for any number of agents, and each
 cluster request may be carried out and answered, carried out with its answer lost, or not
 carried out at all.
 */
module Cluster {
  import opened Runs

  type AgentId = string
  type CallId = nat
  type Uid = nat // one number per pod ever created: tells the incarnations of an agent apart

  /** A call in flight, by the request it is about to make. */
  datatype Call =
    | Starting(id: AgentId)              // startAgent, before createPod
    | PodMade(id: AgentId, uid: Uid)     // startAgent, between createPod and createService
    | Stopping(id: AgentId)              // stopAgent, before deleteService
    | ServiceGone(id: AgentId, uid: Uid) // stopAgent, between deleteService and deletePod

  /** `services[id]` remembers the pod its creator had made: a history value, not cluster data. */
  datatype State = State(
    pods: map<AgentId, Uid>, services: map<AgentId, Uid>, calls: map<CallId, Call>, nextUid: Uid)

  /** `lost`: the request is carried out but reported as failed.  `Fail`: it is not carried out. */
  datatype Event =
    | BeginStart(c: CallId, id: AgentId)
    | BeginStop(c: CallId, id: AgentId)
    | CreatePod(c: CallId, lost: bool)
    | CreateService(c: CallId, lost: bool)
    | DeleteService(c: CallId, lost: bool)
    | DeletePod(c: CallId, lost: bool)
    | Fail(c: CallId)

  predicate Enabled(s: State, e: Event) {
    match e
    case BeginStart(c, _) => c !in s.calls
    case BeginStop(c, _) => c !in s.calls
    case CreatePod(c, _) => c in s.calls && s.calls[c].Starting?
    case CreateService(c, _) => c in s.calls && s.calls[c].PodMade?
    case DeleteService(c, _) => c in s.calls && s.calls[c].Stopping?
    case DeletePod(c, _) => c in s.calls && s.calls[c].ServiceGone?
    case Fail(c) => c in s.calls
  }

  /** A create is refused when the name is taken and a delete when it is absent; the call then throws. */
  function Next(s: State, e: Event): State {
    if !Enabled(s, e) then s else
    match e
    case BeginStart(c, id) => s.(calls := s.calls[c := Starting(id)])
    case BeginStop(c, id) => s.(calls := s.calls[c := Stopping(id)])
    case CreatePod(c, lost) =>
      var id := s.calls[c].id;
      if id in s.pods then s.(calls := s.calls - {c})
      else s.(pods := s.pods[id := s.nextUid],
              nextUid := s.nextUid + 1,
              calls := if lost then s.calls - {c} else s.calls[c := PodMade(id, s.nextUid)])
    case CreateService(c, _) =>
      var id := s.calls[c].id;
      if id in s.services then s.(calls := s.calls - {c})
      else s.(services := s.services[id := s.calls[c].uid], calls := s.calls - {c})
    case DeleteService(c, lost) =>
      var id := s.calls[c].id;
      if id !in s.services then s.(calls := s.calls - {c})
      else s.(services := s.services - {id},
              calls := if lost then s.calls - {c} else s.calls[c := ServiceGone(id, s.services[id])])
    case DeletePod(c, _) =>
      s.(pods := s.pods - {s.calls[c].id}, calls := s.calls - {c})
    case Fail(c) => s.(calls := s.calls - {c})
  }

  ghost const K8S: System<State, Event> := System(State(map[], map[], map[], 0), Enabled, Next)

  /** The agents whose pod event `e` leaves without anybody responsible for it. */
  ghost function Dropped(s: State, e: Event): set<AgentId> {
    match e
    case CreatePod(c, lost) =>
      if lost && Enabled(s, e) && s.calls[c].id !in s.pods then {s.calls[c].id} else {}
    case DeleteService(c, lost) =>
      if lost && Enabled(s, e) && s.calls[c].id in s.services then {s.calls[c].id} else {}
    case Fail(c) =>
      if c in s.calls && (s.calls[c].PodMade? || s.calls[c].ServiceGone?) then {s.calls[c].id} else {}
    case _ => {}
  }

  /** The agents whose pod some event of the run dropped. */
  ghost function Leaked(es: seq<Event>): set<AgentId> {
    if es == [] then {}
    else var front := es[..|es| - 1]; Leaked(front) + Dropped(After(K8S, front), es[|es| - 1])
  }

  /** What can be responsible for a pod. */
  datatype Holder = Caller(c: CallId) | LiveService | Leak

  predicate Holds(call: Call, id: AgentId) {
    (call.PodMade? || call.ServiceGone?) && call.id == id
  }

  ghost function Holders(s: State, leaked: set<AgentId>, id: AgentId): set<Holder> {
    (set c | c in s.calls && Holds(s.calls[c], id) :: Caller(c))
    + (if id in s.services then {LiveService} else {})
    + (if id in leaked then {Leak} else {})
  }

  /** `id`'s pod has exactly one holder, which belongs to this incarnation; without a pod there is none. */
  ghost predicate Accounted(s: State, leaked: set<AgentId>, id: AgentId) {
    if id !in s.pods then
      id !in s.services && id !in leaked && NoCaller(s, id)
    else if id in s.services then
      s.services[id] == s.pods[id] && id !in leaked && NoCaller(s, id)
    else if id in leaked then
      NoCaller(s, id)
    else
      exists c :: OnlyCaller(s, id, c)
  }

  ghost predicate NoCaller(s: State, id: AgentId) {
    forall c | c in s.calls :: !Holds(s.calls[c], id)
  }

  ghost predicate OnlyCaller(s: State, id: AgentId, c: CallId) {
    && c in s.calls && Holds(s.calls[c], id) && id in s.pods && s.calls[c].uid == s.pods[id]
    && forall d | d in s.calls :: Holds(s.calls[d], id) ==> d == c
  }

  lemma AccountedStep(s: State, leaked: set<AgentId>, e: Event, id: AgentId)
    requires Enabled(s, e) && Accounted(s, leaked, id)
    ensures Accounted(Next(s, e), leaked + Dropped(s, e), id)
  {
    var t := Next(s, e);
    if exists c :: OnlyCaller(s, id, c) {
      var c :| OnlyCaller(s, id, c);
      if c in t.calls {
        assert OnlyCaller(t, id, c);
      }
    } else if e.CreatePod? && id in t.pods && id !in s.pods && !e.lost {
      assert OnlyCaller(t, id, e.c);
    } else if e.DeleteService? && id in s.services && id !in t.services && !e.lost {
      assert OnlyCaller(t, id, e.c);
    }
  }

  lemma {:induction false} AlwaysAccounted(es: seq<Event>, id: AgentId)
    requires IsRun(K8S, es)
    ensures Accounted(After(K8S, es), Leaked(es), id)
  {
    if es != [] {
      var front := es[..|es| - 1];
      AlwaysAccounted(front, id);
      AccountedStep(After(K8S, front), Leaked(front), es[|es| - 1], id);
    }
  }

  /** Uids are fresh, so different agents never share one. */
  ghost predicate FreshUids(s: State) {
    && (forall id | id in s.pods :: s.pods[id] < s.nextUid)
    && (forall id, id' | id in s.pods && id' in s.pods && s.pods[id] == s.pods[id'] :: id == id')
  }

  lemma FreshUidsStep(s: State, e: Event)
    requires FreshUids(s)
    ensures FreshUids(Next(s, e))
  {
  }

  lemma {:induction false} AlwaysFreshUids(es: seq<Event>)
    requires IsRun(K8S, es)
    ensures FreshUids(After(K8S, es))
  {
    if es != [] {
      AlwaysFreshUids(es[..|es| - 1]);
      FreshUidsStep(After(K8S, es[..|es| - 1]), es[|es| - 1]);
    }
  }

  // ---------------------------------------------------------------- the resource token

  ghost predicate ExactlyOne(holders: set<Holder>) {
    exists h :: holders == {h}
  }

  lemma CountHolders(s: State, leaked: set<AgentId>, id: AgentId)
    requires Accounted(s, leaked, id)
    ensures id !in s.pods ==> Holders(s, leaked, id) == {}
    ensures id in s.pods ==> ExactlyOne(Holders(s, leaked, id))
  {
    var holders := Holders(s, leaked, id);
    if id !in s.pods {
      assert holders == {};
    } else if id in s.services {
      assert holders == {LiveService};
    } else if id in leaked {
      assert holders == {Leak};
    } else {
      var c :| OnlyCaller(s, id, c);
      assert holders == {Caller(c)};
    }
  }

  /** In every run a pod exists exactly when there is exactly one holder, and without a pod there is none. */
  lemma TokenConservation(es: seq<Event>, id: AgentId)
    requires IsRun(K8S, es)
    ensures id in After(K8S, es).pods ==> ExactlyOne(Holders(After(K8S, es), Leaked(es), id))
    ensures id !in After(K8S, es).pods ==> Holders(After(K8S, es), Leaked(es), id) == {}
  {
    AlwaysAccounted(es, id);
    CountHolders(After(K8S, es), Leaked(es), id);
  }

  /** A service never exists without the very pod it was created for. */
  lemma ServiceImpliesItsPod(es: seq<Event>, id: AgentId)
    requires IsRun(K8S, es) && id in After(K8S, es).services
    ensures var s := After(K8S, es); id in s.pods && s.services[id] == s.pods[id]
  {
    AlwaysAccounted(es, id);
  }

  /**
   The second request of a call cannot be refused: the pod is still the incarnation the
   call dealt with, its service does not exist, and no other call is half-way for this agent.
   So a stop deletes exactly the pod whose service it deleted.
   */
  lemma SecondStepMeetsItsOwnPod(es: seq<Event>, c: CallId)
    requires IsRun(K8S, es) && c in After(K8S, es).calls
    requires After(K8S, es).calls[c].PodMade? || After(K8S, es).calls[c].ServiceGone?
    ensures var s := After(K8S, es); var id := s.calls[c].id;
            && id in s.pods && s.pods[id] == s.calls[c].uid && id !in s.services
            && forall d | d in s.calls && Holds(s.calls[d], id) :: d == c
  {
    AlwaysAccounted(es, After(K8S, es).calls[c].id);
  }

  ghost function StartAlone(es: seq<Event>, c: CallId, id: AgentId): seq<Event> {
    es + [BeginStart(c, id)] + [CreatePod(c, false)] + [CreateService(c, false)]
  }

  ghost function StopAlone(es: seq<Event>, c: CallId, id: AgentId): seq<Event> {
    es + [BeginStop(c, id)] + [DeleteService(c, false)] + [DeletePod(c, false)]
  }

  /** An uninterrupted start of an absent agent adds exactly its pod and its service. */
  lemma StartAloneBuilds(es: seq<Event>, c: CallId, id: AgentId)
    requires IsRun(K8S, es) && c !in After(K8S, es).calls && id !in After(K8S, es).pods
    ensures IsRun(K8S, StartAlone(es, c, id))
    ensures var s, t := After(K8S, es), After(K8S, StartAlone(es, c, id));
            t == s.(pods := s.pods[id := s.nextUid], services := s.services[id := s.nextUid], nextUid := s.nextUid + 1)
  {
    AlwaysAccounted(es, id);
    var s := After(K8S, es);
    Extend3(K8S, es, BeginStart(c, id), CreatePod(c, false), CreateService(c, false));
    StartBuilds(s, c, id, s.(
      pods := s.pods[id := s.nextUid], services := s.services[id := s.nextUid], nextUid := s.nextUid + 1));
  }

  /** An uninterrupted stop of a served agent removes exactly its pod and its service. */
  lemma StopAloneRemoves(es: seq<Event>, c: CallId, id: AgentId)
    requires IsRun(K8S, es) && c !in After(K8S, es).calls && id in After(K8S, es).services
    ensures IsRun(K8S, StopAlone(es, c, id))
    ensures var s, t := After(K8S, es), After(K8S, StopAlone(es, c, id));
            t == s.(pods := s.pods - {id}, services := s.services - {id})
  {
    AlwaysAccounted(es, id);
    var s := After(K8S, es);
    Extend3(K8S, es, BeginStop(c, id), DeleteService(c, false), DeletePod(c, false));
    StopRemoves(s, c, id, s.(pods := s.pods - {id}, services := s.services - {id}));
  }

  /** So a stop undoes a start, whatever the suspended calls of others hold. */
  lemma StopUndoesStart(es: seq<Event>, c: CallId, id: AgentId)
    requires IsRun(K8S, es) && c !in After(K8S, es).calls && id !in After(K8S, es).pods
    ensures var s, t := After(K8S, es), After(K8S, StopAlone(StartAlone(es, c, id), c, id));
            t == s.(nextUid := s.nextUid + 1)
  {
    AlwaysAccounted(es, id);
    StartAloneBuilds(es, c, id);
    StopAloneRemoves(StartAlone(es, c, id), c, id);
    RemovedAgain(After(K8S, es).pods, id, After(K8S, es).nextUid);
    RemovedAgain(After(K8S, es).services, id, After(K8S, es).nextUid);
  }

  lemma RemovedAgain(m: map<AgentId, Uid>, id: AgentId, u: Uid)
    requires id !in m
    ensures m[id := u] - {id} == m
  {
  }

  lemma StartBuilds(s: State, c: CallId, id: AgentId, t: State)
    requires c !in s.calls && id !in s.pods && id !in s.services
    requires t == s.(pods := s.pods[id := s.nextUid], services := s.services[id := s.nextUid], nextUid := s.nextUid + 1)
    ensures var s1 := Next(s, BeginStart(c, id)); var s2 := Next(s1, CreatePod(c, false));
            Enabled(s1, CreatePod(c, false)) && Enabled(s2, CreateService(c, false))
            && Next(s2, CreateService(c, false)) == t
  {
    var s1 := Next(s, BeginStart(c, id));
    var s2 := Next(s1, CreatePod(c, false));
    assert s2.calls - {c} == s.calls;
  }

  lemma StopRemoves(s: State, c: CallId, id: AgentId, t: State)
    requires c !in s.calls && id in s.pods && id in s.services
    requires t == s.(pods := s.pods - {id}, services := s.services - {id})
    ensures var s1 := Next(s, BeginStop(c, id)); var s2 := Next(s1, DeleteService(c, false));
            Enabled(s1, DeleteService(c, false)) && Enabled(s2, DeletePod(c, false))
            && Next(s2, DeletePod(c, false)) == t
  {
    var s1 := Next(s, BeginStop(c, id));
    var s2 := Next(s1, DeleteService(c, false));
    assert s2.calls - {c} == s.calls;
  }

  // ---------------------------------------------------------------- leaked pods

  /** A pod nobody can remove: no service, and no call between its two requests. */
  ghost predicate Orphan(s: State, id: AgentId) {
    id in s.pods && id !in s.services && NoCaller(s, id)
  }

  /** A pod is orphaned exactly when some event of the run dropped it. */
  lemma OrphanExactlyWhenDropped(es: seq<Event>, id: AgentId)
    requires IsRun(K8S, es)
    ensures Orphan(After(K8S, es), id) <==> id in Leaked(es)
  {
    AlwaysAccounted(es, id);
  }

  /** Event `e` loses no answer to a first request and fails no call between its two requests. */
  predicate Clean(s: State, e: Event) {
    && (e.CreatePod? || e.DeleteService? ==> !e.lost)
    && (e.Fail? && e.c in s.calls ==> !s.calls[e.c].PodMade? && !s.calls[e.c].ServiceGone?)
  }

  lemma {:induction false} CleanRunsDropNothing(es: seq<Event>)
    requires forall i | 0 <= i < |es| :: Clean(After(K8S, es[..i]), es[i])
    ensures Leaked(es) == {}
  {
    if es != [] {
      var front := es[..|es| - 1];
      forall i | 0 <= i < |front| ensures Clean(After(K8S, front[..i]), front[i]) {
        assert front[..i] == es[..i];
      }
      CleanRunsDropNothing(front);
      assert Clean(After(K8S, es[..|es| - 1]), es[|es| - 1]);
    }
  }

  /**
   Overlap, refusals, failures of first requests and lost answers to second ones never orphan a pod:
   only a lost first answer or a failure between the two requests can.
   */
  lemma FaultlessRunsLeakNothing(es: seq<Event>, id: AgentId)
    requires IsRun(K8S, es) && forall i | 0 <= i < |es| :: Clean(After(K8S, es[..i]), es[i])
    ensures !Orphan(After(K8S, es), id)
  {
    CleanRunsDropNothing(es);
    OrphanExactlyWhenDropped(es, id);
  }

  /** And each of them does: a lost answer to `createPod` leaves an orphan, and so does a failure after it. */
  lemma EitherFaultOrphans(c: CallId, id: AgentId) returns (lost: seq<Event>, failed: seq<Event>)
    ensures lost == [BeginStart(c, id), CreatePod(c, true)] && IsRun(K8S, lost) && Orphan(After(K8S, lost), id)
    ensures failed == [BeginStart(c, id), CreatePod(c, false), Fail(c)] && IsRun(K8S, failed) && Orphan(After(K8S, failed), id)
  {
    lost := [BeginStart(c, id), CreatePod(c, true)];
    failed := [BeginStart(c, id), CreatePod(c, false), Fail(c)];
    Extend(K8S, [], BeginStart(c, id));
    Extend(K8S, [BeginStart(c, id)], CreatePod(c, true));
    Extend(K8S, [BeginStart(c, id)], CreatePod(c, false));
    Extend(K8S, [BeginStart(c, id), CreatePod(c, false)], Fail(c));
    assert [] + [BeginStart(c, id)] == [BeginStart(c, id)];
    assert [BeginStart(c, id)] + [CreatePod(c, true)] == lost;
    assert [BeginStart(c, id)] + [CreatePod(c, false)] + [Fail(c)] == failed;
  }

  lemma OrphanStep(s: State, e: Event, id: AgentId)
    requires Orphan(s, id)
    ensures Orphan(Next(s, e), id) && Next(s, e).pods[id] == s.pods[id]
  {
  }

  /** An orphan stays the same orphan through every later start and stop, by whatever interleaving. */
  lemma {:induction false} OrphanForever(es: seq<Event>, more: seq<Event>, id: AgentId)
    requires IsRun(K8S, es + more) && Orphan(After(K8S, es), id)
    ensures Orphan(After(K8S, es + more), id)
    ensures After(K8S, es + more).pods[id] == After(K8S, es).pods[id]
    decreases |more|
  {
    if more == [] {
      assert es + more == es;
    } else {
      SplitLast(K8S, es, more);
      OrphanForever(es, more[..|more| - 1], id);
      OrphanStep(After(K8S, es + more[..|more| - 1]), more[|more| - 1], id);
    }
  }

  // ---------------------------------------------------------------- one incarnation, one life

  datatype Phase = Unborn | Creating | Serving | Deleting | Ended

  predicate IsPodMade(call: Call, u: Uid) { call.PodMade? && call.uid == u }

  predicate IsServiceGone(call: Call, u: Uid) { call.ServiceGone? && call.uid == u }

  ghost function PhaseOf(s: State, u: Uid): Phase {
    if u >= s.nextUid then Unborn
    else if exists c | c in s.calls :: IsPodMade(s.calls[c], u) then Creating
    else if exists id | id in s.services :: s.services[id] == u then Serving
    else if exists c | c in s.calls :: IsServiceGone(s.calls[c], u) then Deleting
    else Ended
  }

  function Rank(p: Phase): nat {
    match p case Unborn => 0 case Creating => 1 case Serving => 2 case Deleting => 3 case Ended => 4
  }

  lemma PhaseStep(s: State, e: Event, u: Uid)
    requires Enabled(s, e)
    ensures Rank(PhaseOf(s, u)) <= Rank(PhaseOf(Next(s, e), u))
  {
    var t := Next(s, e);
    assert forall c | c in t.calls && IsPodMade(t.calls[c], u) && u < s.nextUid :: c in s.calls && s.calls[c] == t.calls[c];
  }

  /** The life of a pod runs one way: no event ever takes an incarnation back to an earlier phase. */
  lemma {:induction false} LifeRunsOneWay(es: seq<Event>, i: nat, u: Uid)
    requires IsRun(K8S, es) && i <= |es|
    ensures Rank(PhaseOf(After(K8S, es[..i]), u)) <= Rank(PhaseOf(After(K8S, es), u))
    decreases |es|
  {
    if i == |es| {
      assert es[..i] == es;
    } else {
      var front := es[..|es| - 1];
      assert es[..i] == front[..i];
      LifeRunsOneWay(front, i, u);
      PhaseStep(After(K8S, front), es[|es| - 1], u);
    }
  }

  /** The incarnation whose life event `e` carries on, and the phase it takes it out of. */
  ghost function Advance(s: State, e: Event): Option<(Uid, Phase)> {
    if !Enabled(s, e) then None else
    match e
    case CreatePod(c, _) => if s.calls[c].id in s.pods then None else Some((s.nextUid, Unborn))
    case CreateService(c, _) => Some((s.calls[c].uid, Creating))
    case DeleteService(c, _) =>
      var id := s.calls[c].id; if id in s.services then Some((s.services[id], Serving)) else None
    case DeletePod(c, _) => Some((s.calls[c].uid, Deleting))
    case _ => None
  }

  /** Callers half-way and services hold the present incarnation of their agent. */
  ghost predicate Present(s: State) {
    && FreshUids(s)
    && (forall c | c in s.calls && (s.calls[c].PodMade? || s.calls[c].ServiceGone?) ::
          OnlyCaller(s, s.calls[c].id, c) && s.calls[c].id !in s.services)
    && (forall id | id in s.services :: id in s.pods && s.services[id] == s.pods[id] && NoCaller(s, id))
  }

  lemma AlwaysPresent(es: seq<Event>)
    requires IsRun(K8S, es)
    ensures Present(After(K8S, es))
  {
    var s := After(K8S, es);
    AlwaysFreshUids(es);
    forall c | c in s.calls && (s.calls[c].PodMade? || s.calls[c].ServiceGone?)
      ensures OnlyCaller(s, s.calls[c].id, c) && s.calls[c].id !in s.services
    {
      AlwaysAccounted(es, s.calls[c].id);
    }
    forall id | id in s.services ensures id in s.pods && s.services[id] == s.pods[id] && NoCaller(s, id) {
      AlwaysAccounted(es, id);
    }
  }

  lemma AdvancesFrom(s: State, e: Event)
    requires Present(s) && Advance(s, e).Some?
    ensures PhaseOf(s, Advance(s, e).value.0) == Advance(s, e).value.1
  {
  }

  lemma AdvancesOn(s: State, e: Event)
    requires Present(s) && Advance(s, e).Some?
    ensures PhaseOf(Next(s, e), Advance(s, e).value.0) != Advance(s, e).value.1
  {
    var t := Next(s, e);
    assert forall c | c in t.calls && c != e.c :: c in s.calls && t.calls[c] == s.calls[c];
    if e.CreateService? {
      assert s.calls[e.c].id in t.services;
    }
  }

  lemma AdvanceLeavesPhase(es: seq<Event>, e: Event)
    requires IsRun(K8S, es) && Enabled(After(K8S, es), e) && Advance(After(K8S, es), e).Some?
    ensures var s, (u, p) := After(K8S, es), Advance(After(K8S, es), e).value;
            PhaseOf(s, u) == p && Rank(PhaseOf(Next(s, e), u)) > Rank(p)
  {
    AlwaysPresent(es);
    AdvancesFrom(After(K8S, es), e);
    AdvancesOn(After(K8S, es), e);
    PhaseStep(After(K8S, es), e, Advance(After(K8S, es), e).value.0);
  }

  /**
   Each incarnation of a pod is created at most once, given a service at most once, loses
   its service at most once and is deleted at most once, over the whole run.
   */
  lemma OncePerIncarnation(es: seq<Event>, i: nat, j: nat)
    requires IsRun(K8S, es) && i < j < |es|
    requires Advance(After(K8S, es[..i]), es[i]).Some?
    ensures Advance(After(K8S, es[..j]), es[j]) != Advance(After(K8S, es[..i]), es[i])
  {
    Prefix(K8S, es, i);
    Prefix(K8S, es, j);
    var (u, p) := Advance(After(K8S, es[..i]), es[i]).value;
    AdvanceLeavesPhase(es[..i], es[i]);
    assert es[..j][..i + 1] == es[..i + 1];
    LifeRunsOneWay(es[..j], i + 1, u);
    if Advance(After(K8S, es[..j]), es[j]).Some? {
      AdvanceLeavesPhase(es[..j], es[j]);
    }
  }
}
