/**
 The manager on top of Kubernetes.  `Manager` takes starting and stopping an agent as one step
 each; here a spin-up waits for `createPod` and `createService`, and a spin-down for
 `deleteService` and `deletePod`, each a request of its own among the steps of everybody else.
 Every run of the two together is a run of `Manager`, so what is proved there holds here.
 */
module ManagerOnK8s {
  import opened Runs
  import Manager
  import ManagerCoherence
  import ManagerDeadlines
  import Cluster

  type AgentId = string
  type CallId = nat

  /** The manager's part, whose set of running agents is not used, and the cluster. */
  datatype State = State(desk: Manager.State, cluster: Cluster.State)

  datatype Event = Desk(own: Manager.Event) | Request(of: Cluster.Event)

  /** The manager's own steps: it starts and stops containers by requests only. */
  predicate DeskEnabled(s: State, e: Manager.Event) {
    Manager.Enabled(s.desk, e) &&
    match e
    case Start(_, _) => false
    case Stop(_) => false
    case BeginUp(c, _, _) => c !in s.cluster.calls
    case BeginDown(c, _) => c !in s.cluster.calls
    case Fire(c, _) => c !in s.cluster.calls
    case Abort(c) => !s.desk.ups[c].stage.Begun?
    case GiveUp(c) => s.desk.downs[c].Ordered?
    case _ => true
  }

  predicate Enabled(s: State, e: Event) {
    match e
    case Desk(e) => DeskEnabled(s, e)
    case Request(BeginStart(c, id)) =>
      c !in s.cluster.calls && c in s.desk.ups && s.desk.ups[c].stage.Begun? && s.desk.ups[c].id == id
    case Request(BeginStop(c, id)) =>
      c !in s.cluster.calls && c in s.desk.downs && s.desk.downs[c] == Manager.Deleted(id)
    case Request(e) => Cluster.Enabled(s.cluster, e)
  }

  /** Event `e` creates the service of its agent. */
  predicate Serves(k: Cluster.State, e: Cluster.Event) {
    e.CreateService? && Cluster.Enabled(k, e) && k.calls[e.c].id !in k.services
  }

  /** `startAgent` or `stopAgent` of call `c` returns or throws. */
  function Returned(desk: Manager.State, k: Cluster.State, e: Cluster.Event): Manager.State {
    if e.c in desk.ups then
      desk.(ups := desk.ups[e.c := desk.ups[e.c].(
        stage := if Serves(k, e) && !e.lost then Manager.Started else Manager.Refused, owes := Serves(k, e))])
    else desk.(downs := desk.downs - {e.c})
  }

  function Next(s: State, e: Event): State {
    if !Enabled(s, e) then s else
    match e
    case Desk(e) => s.(desk := Manager.Next(s.desk, e))
    case Request(e) =>
      var k := Cluster.Next(s.cluster, e);
      State(if e.c in s.cluster.calls && e.c !in k.calls then Returned(s.desk, s.cluster, e) else s.desk, k)
  }

  ghost const BOTH: System<State, Event> := System(State(Manager.LIFE.init, Cluster.K8S.init), Enabled, Next)

  // ---------------------------------------------------------------- as the manager sees it

  predicate Gone(k: Cluster.State, c: CallId) { c in k.calls && k.calls[c].ServiceGone? }

  /** A spin-down has done its work once the service is deleted. */
  function Pending(downs: map<CallId, Manager.Down>, k: Cluster.State): map<CallId, Manager.Down> {
    map c | c in downs && !Gone(k, c) :: downs[c]
  }

  /** An agent runs while it has its service. */
  function View(s: State): Manager.State {
    s.desk.(running := s.cluster.services.Keys, downs := Pending(s.desk.downs, s.cluster))
  }

  /** The step of the manager's protocol that event `e` is, if any. */
  function Step(s: State, e: Event): Option<Manager.Event> {
    if !Enabled(s, e) then None else
    match e
    case Desk(e) => Some(e)
    case Request(CreatePod(c, lost)) =>
      if lost || s.cluster.calls[c].id in s.cluster.pods then Some(Manager.Start(c, NotDone)) else None
    case Request(CreateService(c, lost)) =>
      Some(Manager.Start(c, if s.cluster.calls[c].id in s.cluster.services then NotDone else if lost then Lost else Answered))
    case Request(DeleteService(c, _)) =>
      Some(if s.cluster.calls[c].id in s.cluster.services then Manager.Stop(c) else Manager.GiveUp(c))
    case Request(Fail(c)) =>
      if s.cluster.calls[c].ServiceGone? then None
      else Some(if s.cluster.calls[c].Stopping? then Manager.GiveUp(c) else Manager.Start(c, NotDone))
    case _ => None
  }

  ghost function Image(es: seq<Event>): seq<Manager.Event> {
    if es == [] then []
    else
      var front := es[..|es| - 1];
      var step := Step(After(BOTH, front), es[|es| - 1]);
      if step.Some? then Image(front) + [step.value] else Image(front)
  }

  // ---------------------------------------------------------------- refinement

  /** Every request belongs to a spin-up or spin-down that waits for it. */
  predicate Waits(s: State, c: CallId)
    requires c in s.cluster.calls
  {
    match s.cluster.calls[c]
    case Starting(id) => c in s.desk.ups && s.desk.ups[c].stage.Begun? && s.desk.ups[c].id == id && c !in s.desk.downs
    case PodMade(id, _) => c in s.desk.ups && s.desk.ups[c].stage.Begun? && s.desk.ups[c].id == id && c !in s.desk.downs
    case Stopping(id) => c in s.desk.downs && s.desk.downs[c] == Manager.Deleted(id) && c !in s.desk.ups
    case ServiceGone(id, _) => c in s.desk.downs && s.desk.downs[c] == Manager.Deleted(id) && c !in s.desk.ups
  }

  ghost predicate Paired(s: State) {
    && (forall c | c in s.cluster.calls :: Waits(s, c))
    && (forall c | c in s.desk.ups :: c !in s.desk.downs)
  }

  lemma DeskPaired(s: State, e: Manager.Event)
    requires Paired(s) && DeskEnabled(s, e)
    ensures Paired(Next(s, Desk(e)))
  {
    var t := Next(s, Desk(e));
    forall c | c in t.cluster.calls ensures Waits(t, c) {
      assert Waits(s, c);
    }
  }

  lemma RequestPaired(s: State, e: Cluster.Event)
    requires Paired(s) && Enabled(s, Request(e))
    ensures Paired(Next(s, Request(e)))
  {
    var t := Next(s, Request(e));
    forall c | c in t.cluster.calls ensures Waits(t, c) {
      if c in s.cluster.calls {
        assert Waits(s, c);
      }
    }
  }

  /** What a step of the manager leaves of the view. */
  ghost predicate Follows(s: State, e: Event) {
    var step := Step(s, e);
    if step.Some? then Manager.Enabled(View(s), step.value) && Manager.Next(View(s), step.value) == View(Next(s, e))
    else View(Next(s, e)) == View(s)
  }

  lemma PendingChange(downs: map<CallId, Manager.Down>, k: Cluster.State, c: CallId, d: Manager.Down)
    requires !Gone(k, c)
    ensures Pending(downs[c := d], k) == Pending(downs, k)[c := d]
    ensures Pending(downs - {c}, k) == Pending(downs, k) - {c}
  {
  }

  /** The manager's own steps do not look at the set of running agents. */
  lemma DeskFollows(s: State, e: Manager.Event)
    requires Paired(s) && DeskEnabled(s, e)
    ensures Follows(s, Desk(e))
  {
    match e
    case BeginDown(c, id) => PendingChange(s.desk.downs, s.cluster, c, Manager.Ordered(id, None));
    case Fire(c, timer) => PendingChange(s.desk.downs, s.cluster, c, Manager.Ordered(timer.id, Some(timer.due)));
    case Delete(c) =>
      assert c in s.cluster.calls ==> Waits(s, c);
      PendingChange(s.desk.downs, s.cluster, c, Manager.Deleted(s.desk.downs[c].id));
    case GiveUp(c) =>
      assert c in s.cluster.calls ==> Waits(s, c);
      PendingChange(s.desk.downs, s.cluster, c, s.desk.downs[c]);
    case _ =>
  }

  lemma SamePending(downs: map<CallId, Manager.Down>, k: Cluster.State, k': Cluster.State)
    requires forall c | c in downs :: Gone(k, c) <==> Gone(k', c)
    ensures Pending(downs, k) == Pending(downs, k')
  {
  }

  lemma LessPending(downs: map<CallId, Manager.Down>, k: Cluster.State, k': Cluster.State, c: CallId)
    requires c in downs && forall d | d in downs && d != c :: Gone(k, d) <==> Gone(k', d)
    ensures Gone(k', c) ==> Pending(downs, k') == Pending(downs, k) - {c}
    ensures Pending(downs - {c}, k') == Pending(downs, k) - {c}
  {
  }

  lemma StartFollows(s: State, e: Cluster.Event)
    requires Paired(s) && Enabled(s, Request(e)) && e.c in s.cluster.calls
    requires s.cluster.calls[e.c].Starting? || s.cluster.calls[e.c].PodMade?
    ensures Follows(s, Request(e))
  {
    var k := Cluster.Next(s.cluster, e);
    assert Waits(s, e.c);
    SamePending(s.desk.downs, s.cluster, k);
    if Serves(s.cluster, e) {
      assert k.services.Keys == s.cluster.services.Keys + {s.cluster.calls[e.c].id};
    } else {
      assert k.services == s.cluster.services;
    }
  }

  lemma StopFollows(s: State, e: Cluster.Event)
    requires Paired(s) && Enabled(s, Request(e)) && e.c in s.cluster.calls
    requires s.cluster.calls[e.c].Stopping? || s.cluster.calls[e.c].ServiceGone?
    ensures Follows(s, Request(e))
  {
    var k := Cluster.Next(s.cluster, e);
    assert Waits(s, e.c);
    LessPending(s.desk.downs, s.cluster, k, e.c);
    if e.DeleteService? && s.cluster.calls[e.c].id in s.cluster.services {
      assert k.services.Keys == s.cluster.services.Keys - {s.cluster.calls[e.c].id};
    } else {
      assert k.services == s.cluster.services;
    }
    if s.cluster.calls[e.c].ServiceGone? {
      assert e.c !in Pending(s.desk.downs, s.cluster);
    }
  }

  lemma RequestFollows(s: State, e: Cluster.Event)
    requires Paired(s) && Enabled(s, Request(e))
    ensures Follows(s, Request(e))
  {
    if e.BeginStart? || e.BeginStop? {
      SamePending(s.desk.downs, s.cluster, Cluster.Next(s.cluster, e));
    } else if s.cluster.calls[e.c].Starting? || s.cluster.calls[e.c].PodMade? {
      StartFollows(s, e);
    } else {
      StopFollows(s, e);
    }
  }

  lemma StepFollows(s: State, e: Event)
    requires Paired(s) && Enabled(s, e)
    ensures Follows(s, e) && Paired(Next(s, e))
  {
    match e
    case Desk(e) =>
      DeskFollows(s, e);
      DeskPaired(s, e);
    case Request(e) =>
      RequestFollows(s, e);
      RequestPaired(s, e);
  }

  lemma {:induction false} AlwaysPaired(es: seq<Event>)
    requires IsRun(BOTH, es)
    ensures Paired(After(BOTH, es))
  {
    if es != [] {
      AlwaysPaired(es[..|es| - 1]);
      StepFollows(After(BOTH, es[..|es| - 1]), es[|es| - 1]);
    }
  }

  lemma ImageStep(front: seq<Manager.Event>, s: State, e: Event)
    requires IsRun(Manager.LIFE, front) && After(Manager.LIFE, front) == View(s) && Follows(s, e)
    ensures var step := Step(s, e); var es := if step.Some? then front + [step.value] else front;
            IsRun(Manager.LIFE, es) && After(Manager.LIFE, es) == View(Next(s, e))
  {
    if Step(s, e).Some? {
      Extend(Manager.LIFE, front, Step(s, e).value);
    }
  }

  /** Every run of the manager on Kubernetes is a run of `Manager` in which an agent runs while it has its service. */
  lemma {:induction false} ManagerOnK8sRefinesManager(es: seq<Event>)
    requires IsRun(BOTH, es)
    ensures IsRun(Manager.LIFE, Image(es)) && After(Manager.LIFE, Image(es)) == View(After(BOTH, es))
  {
    if es == [] {
      assert View(BOTH.init) == Manager.LIFE.init;
    } else {
      var front, e := es[..|es| - 1], es[|es| - 1];
      ManagerOnK8sRefinesManager(front);
      AlwaysPaired(front);
      StepFollows(After(BOTH, front), e);
      ImageStep(Image(front), After(BOTH, front), e);
    }
  }

  /** The cluster's part of a run. */
  ghost function Requests(es: seq<Event>): seq<Cluster.Event> {
    if es == [] then []
    else if es[|es| - 1].Request? then Requests(es[..|es| - 1]) + [es[|es| - 1].of] else Requests(es[..|es| - 1])
  }

  /** And it is a run of `Cluster`: nothing the manager does gets in the way of the pods' accounting. */
  lemma {:induction false} ManagerOnK8sRunsCluster(es: seq<Event>)
    requires IsRun(BOTH, es)
    ensures IsRun(Cluster.K8S, Requests(es)) && After(Cluster.K8S, Requests(es)) == After(BOTH, es).cluster
  {
    if es != [] {
      var front, e := es[..|es| - 1], es[|es| - 1];
      ManagerOnK8sRunsCluster(front);
      if e.Request? {
        Extend(Cluster.K8S, Requests(front), e.of);
      }
    }
  }

  /** So on Kubernetes too a served agent without delays of a second and without faults is known to the cache. */
  lemma ServedAgentsAreKnown(es: seq<Event>, id: AgentId, gap: nat, late: nat)
    requires IsRun(BOTH, es) && gap + late < 1000
    requires ManagerCoherence.Timely(Image(es), id, gap, late, ManagerCoherence.NO_FAULTS)
    ensures var s := After(BOTH, es);
            id in s.cluster.services ==>
              || Manager.Live(s.desk, id)
              || ManagerCoherence.Starting(View(s), id)
              || ManagerCoherence.Stopping(View(s), id)
  {
    ManagerOnK8sRefinesManager(es);
    ManagerCoherence.TimelyRunsAreCoherent(Image(es), id, gap, late);
  }

  // ---------------------------------------------------------------- deadlines on Kubernetes

  /** The manager's steps in the part `more` of a run. */
  ghost function Rest(es: seq<Event>, more: seq<Event>): seq<Manager.Event> {
    if more == [] then []
    else
      var front := more[..|more| - 1];
      var step := Step(After(BOTH, es + front), more[|more| - 1]);
      if step.Some? then Rest(es, front) + [step.value] else Rest(es, front)
  }

  lemma {:induction false} ImageGoesOn(es: seq<Event>, more: seq<Event>)
    ensures Image(es + more) == Image(es) + Rest(es, more)
    decreases |more|
  {
    if more == [] {
      assert es + more == es;
    } else {
      var front := more[..|more| - 1];
      ImageGoesOn(es, front);
      assert (es + more)[..|es + more| - 1] == es + front;
    }
  }

  /** Step `n` of the manager is made by some event `k`, before which exactly the steps before it were made. */
  lemma {:induction false} RestAt(es: seq<Event>, more: seq<Event>, n: nat) returns (k: nat)
    requires n <= |Rest(es, more)|
    ensures k <= |more| && Rest(es, more[..k]) == Rest(es, more)[..n]
    ensures n < |Rest(es, more)| ==> k < |more| && Step(After(BOTH, es + more[..k]), more[k]) == Some(Rest(es, more)[n])
    decreases |more|
  {
    if n == |Rest(es, more)| {
      k := |more|;
      assert more[..k] == more;
    } else {
      var front := more[..|more| - 1];
      if n < |Rest(es, front)| {
        k := RestAt(es, front, n);
        assert front[..k] == more[..k];
      } else {
        k := |front|;
        assert more[..k] == front;
      }
    }
  }

  lemma ViewAt(es: seq<Event>, more: seq<Event>, n: nat) returns (k: nat)
    requires IsRun(BOTH, es + more) && n <= |Rest(es, more)|
    ensures k <= |more| && After(Manager.LIFE, Image(es) + Rest(es, more)[..n]) == View(After(BOTH, es + more[..k]))
    ensures Rest(es, more[..k]) == Rest(es, more)[..n]
    ensures n < |Rest(es, more)| ==> k < |more| && Step(After(BOTH, es + more[..k]), more[k]) == Some(Rest(es, more)[n])
  {
    k := RestAt(es, more, n);
    ImageGoesOn(es, more[..k]);
    RunsTo(es, more, k);
    ManagerOnK8sRefinesManager(es + more[..k]);
  }

  lemma RunsTo(es: seq<Event>, more: seq<Event>, k: nat)
    requires IsRun(BOTH, es + more) && k <= |more|
    ensures IsRun(BOTH, es + more[..k])
  {
    Prefix(BOTH, es + more, |es| + k);
    assert (es + more)[..|es| + k] == es + more[..k];
  }

  lemma ImageIsRun(es: seq<Event>, more: seq<Event>)
    requires IsRun(BOTH, es + more)
    ensures IsRun(Manager.LIFE, Image(es) + Rest(es, more))
    ensures After(Manager.LIFE, Image(es) + Rest(es, more)) == View(After(BOTH, es + more))
    ensures After(Manager.LIFE, Image(es)) == View(After(BOTH, es))
  {
    ImageGoesOn(es, more);
    ManagerOnK8sRefinesManager(es + more);
    RunsTo(es, more, 0);
    assert es + more[..0] == es;
    ManagerOnK8sRefinesManager(es);
  }

  /** Timer `t` has begun spin-down `c` among the first `n` events. */
  predicate BegunBy(more: seq<Event>, n: nat, c: CallId, t: Manager.Timer) {
    exists i | 0 <= i < n <= |more| :: more[i] == Desk(Manager.Fire(c, t))
  }

  /** No spin-down begun by timer `t` throws while the agent has its service; finding none is no such failure. */
  ghost predicate Persistent(es: seq<Event>, more: seq<Event>, t: Manager.Timer) {
    forall k | 0 <= k < |more| :: Persists(After(BOTH, es + more[..k]), more, k, t)
  }

  predicate Persists(s: State, more: seq<Event>, k: nat, t: Manager.Timer)
    requires k < |more|
  {
    var step := Step(s, more[k]);
    step.Some? && step.value.GiveUp? && t.id in s.cluster.services ==> !BegunBy(more, k, step.value.c, t)
  }

  /** At some moment of `more` at which the clock was past `time` the agent had no service. */
  ghost predicate WasUnserved(es: seq<Event>, more: seq<Event>, id: AgentId, time: int) {
    exists k | 0 <= k <= |more| :: Unserved(After(BOTH, es + more[..k]), id, time)
  }

  predicate Unserved(s: State, id: AgentId, time: int) { time <= s.desk.now && id !in s.cluster.services }

  /** Timer `t` has fired in `more`, and the spin-down it began is under way in `s`. */
  ghost predicate Pursues(more: seq<Event>, s: State, t: Manager.Timer) {
    exists c :: BegunBy(more, |more|, c, t) && c in View(s).downs && View(s).downs[c].id == t.id
  }

  /** A timer that fires in the manager's run fires in the whole run. */
  lemma FiresInBoth(es: seq<Event>, more: seq<Event>, n: nat, c: CallId, t: Manager.Timer)
    requires n <= |Rest(es, more)| && ManagerDeadlines.BegunBy(Rest(es, more), n, c, t)
    ensures BegunBy(more, |more|, c, t)
  {
    var i :| 0 <= i < n && Rest(es, more)[i].Fire? && Rest(es, more)[i].c == c && Rest(es, more)[i].timer == t;
    var k := RestAt(es, more, i);
    assert more[k] == Desk(Manager.Fire(c, t));
  }

  lemma PersistsInImage(es: seq<Event>, more: seq<Event>, t: Manager.Timer, n: nat)
    requires IsRun(BOTH, es + more) && Persistent(es, more, t) && n < |Rest(es, more)|
    ensures ManagerDeadlines.Persists(After(Manager.LIFE, Image(es) + Rest(es, more)[..n]), Rest(es, more), n, t)
  {
    var k := ViewAt(es, more, n);
    assert Persists(After(BOTH, es + more[..k]), more, k, t);
    var steps := Rest(es, more);
    if steps[n].GiveUp? && ManagerDeadlines.BegunBy(steps, n, steps[n].c, t) {
      BegunInPrefix(steps, n, steps[n].c, t);
      FiresInBoth(es, more[..k], n, steps[n].c, t);
      BegunInWhole(more, k, steps[n].c, t);
    }
  }

  lemma BegunInPrefix(steps: seq<Manager.Event>, n: nat, c: CallId, t: Manager.Timer)
    requires n <= |steps| && ManagerDeadlines.BegunBy(steps, n, c, t)
    ensures ManagerDeadlines.BegunBy(steps[..n], n, c, t)
  {
    var i :| 0 <= i < n && steps[i].Fire? && steps[i].c == c && steps[i].timer == t;
    assert steps[..n][i] == steps[i];
  }

  lemma BegunInWhole(more: seq<Event>, k: nat, c: CallId, t: Manager.Timer)
    requires k <= |more| && BegunBy(more[..k], k, c, t)
    ensures BegunBy(more, k, c, t)
  {
    var i :| 0 <= i < k && more[..k][i] == Desk(Manager.Fire(c, t));
    assert more[i] == more[..k][i];
  }

  /** The deadline of `ManagerDeadlines`, of services: past a timer and its lateness the agent has lost its service since, or is losing it. */
  lemma ServedAgentIsStoppedByItsTimer(es: seq<Event>, more: seq<Event>, t: Manager.Timer, late: nat)
    requires IsRun(BOTH, es + more) && Persistent(es, more, t) && t in After(BOTH, es).desk.timers
    requires t in After(BOTH, es + more).desk.timers ==> After(BOTH, es + more).desk.now <= t.due + late
    requires After(BOTH, es + more).desk.now > t.due + late
    ensures WasUnserved(es, more, t.id, t.due) || Pursues(more, After(BOTH, es + more), t)
  {
    var steps := Rest(es, more);
    ImageIsRun(es, more);
    forall n | 0 <= n < |steps|
      ensures ManagerDeadlines.Persists(After(Manager.LIFE, Image(es) + steps[..n]), steps, n, t)
    {
      PersistsInImage(es, more, t, n);
    }
    ManagerDeadlines.StoppedByItsTimer(Image(es), steps, t, late);
    if ManagerDeadlines.WasDownSince(Image(es), steps, t.id, t.due) {
      DownIsUnserved(es, more, t.id, t.due);
    } else {
      PursuitInBoth(es, more, t);
    }
  }

  lemma DownIsUnserved(es: seq<Event>, more: seq<Event>, id: AgentId, time: int)
    requires IsRun(BOTH, es + more) && ManagerDeadlines.WasDownSince(Image(es), Rest(es, more), id, time)
    ensures WasUnserved(es, more, id, time)
  {
    var steps := Rest(es, more);
    var n :| 0 <= n <= |steps| && ManagerDeadlines.DownSince(After(Manager.LIFE, Image(es) + steps[..n]), id, time);
    var k := ViewAt(es, more, n);
    assert Unserved(After(BOTH, es + more[..k]), id, time);
  }

  lemma PursuitInBoth(es: seq<Event>, more: seq<Event>, t: Manager.Timer)
    requires ManagerDeadlines.Pursues(Rest(es, more), View(After(BOTH, es + more)), t)
    ensures Pursues(more, After(BOTH, es + more), t)
  {
    var steps := Rest(es, more);
    var n :| 0 <= n < |steps| && steps[n].Fire? && steps[n].timer == t
          && ManagerDeadlines.Chases(View(After(BOTH, es + more)), steps[n].c, t.id);
    assert ManagerDeadlines.BegunBy(steps, |steps|, steps[n].c, t);
    FiresInBoth(es, more, |steps|, steps[n].c, t);
  }

  /** Without an explicit spin-down an agent keeps its service at least until the earliest of its timers is due. */
  lemma ServedUntilDue(es: seq<Event>, more: seq<Event>, id: AgentId)
    requires IsRun(BOTH, es + more)
    requires id in After(BOTH, es).cluster.services && !ManagerDeadlines.Descending(View(After(BOTH, es)), id)
    requires forall i | 0 <= i < |more| :: more[i].Desk? && more[i].own.BeginDown? ==> more[i].own.id != id
    requires forall k | 0 <= k < |more| :: ManagerDeadlines.NothingDue(View(After(BOTH, es + more[..k])), id)
    ensures id in After(BOTH, es + more).cluster.services
  {
    ImageIsRun(es, more);
    forall n | 0 <= n < |Rest(es, more)| ensures Rest(es, more)[n].BeginDown? ==> Rest(es, more)[n].id != id {
      StepsDown(es, more, n, id);
    }
    forall n | 0 <= n < |Rest(es, more)|
      ensures ManagerDeadlines.NothingDue(After(Manager.LIFE, Image(es) + Rest(es, more)[..n]), id)
    {
      NothingDueInImage(es, more, n, id);
    }
    ManagerDeadlines.RunsUntilDue(Image(es), Rest(es, more), id);
  }

  lemma StepsDown(es: seq<Event>, more: seq<Event>, n: nat, id: AgentId)
    requires n < |Rest(es, more)|
    requires forall i | 0 <= i < |more| :: more[i].Desk? && more[i].own.BeginDown? ==> more[i].own.id != id
    ensures Rest(es, more)[n].BeginDown? ==> Rest(es, more)[n].id != id
  {
    var k := RestAt(es, more, n);
    OnlyDeskBegins(After(BOTH, es + more[..k]), more[k]);
  }

  lemma NothingDueInImage(es: seq<Event>, more: seq<Event>, n: nat, id: AgentId)
    requires IsRun(BOTH, es + more) && n < |Rest(es, more)|
    requires forall k | 0 <= k < |more| :: ManagerDeadlines.NothingDue(View(After(BOTH, es + more[..k])), id)
    ensures ManagerDeadlines.NothingDue(After(Manager.LIFE, Image(es) + Rest(es, more)[..n]), id)
  {
    var k := ViewAt(es, more, n);
  }

  lemma ServedForEver(es: seq<Event>, more: seq<Event>, id: AgentId)
    requires IsRun(BOTH, es + more) && ManagerDeadlines.Everlasting(View(After(BOTH, es)), id)
    requires forall i | 0 <= i < |more| :: more[i].Desk? ==> ManagerDeadlines.Spares(more[i].own, id)
    ensures ManagerDeadlines.Everlasting(View(After(BOTH, es + more)), id)
  {
    ImageIsRun(es, more);
    forall n | 0 <= n < |Rest(es, more)| ensures ManagerDeadlines.Spares(Rest(es, more)[n], id) {
      StepSpares(es, more, n, id);
    }
    ManagerDeadlines.RunsForEver(Image(es), Rest(es, more), id);
  }

  lemma StepSpares(es: seq<Event>, more: seq<Event>, n: nat, id: AgentId)
    requires n < |Rest(es, more)|
    requires forall i | 0 <= i < |more| :: more[i].Desk? ==> ManagerDeadlines.Spares(more[i].own, id)
    ensures ManagerDeadlines.Spares(Rest(es, more)[n], id)
  {
    var k := RestAt(es, more, n);
    OnlyDeskBegins(After(BOTH, es + more[..k]), more[k]);
  }

  /** Spin-ups and spin-downs begin, and timers fire, at the manager only. */
  lemma OnlyDeskBegins(s: State, e: Event)
    requires Step(s, e).Some?
    ensures var step := Step(s, e).value;
            step.BeginUp? || step.BeginDown? || step.Fire? ==> e == Desk(step)
  {
  }

  /** Spin-up `c` writes its entry: its TTL is 0, and nothing older is left for its agent, which runs. */
  ghost predicate WritesForEver(s: Manager.State, c: CallId, kept: Manager.Expiry, id: AgentId) {
    && Manager.Enabled(s, Manager.Write(c, kept)) && s.ups[c].id == id
    && id in s.running && !ManagerDeadlines.Descending(s, id) && (forall t | t in s.timers :: t.id != id)
    && (forall d | d in s.ups && s.ups[d].id == id :: s.ups[d].ttl == Manager.NormaliseTtl(Some(0)))
  }

  /** A spin-up with TTL 0 and nothing older left for its agent gives it its service for ever, and the cache knows. */
  lemma TtlZeroServesForEver(es: seq<Event>, c: CallId, kept: Manager.Expiry, more: seq<Event>, id: AgentId)
    requires IsRun(BOTH, es + [Desk(Manager.Write(c, kept))] + more) && WritesForEver(View(After(BOTH, es)), c, kept, id)
    requires forall i | 0 <= i < |more| :: more[i].Desk? ==> ManagerDeadlines.Spares(more[i].own, id)
    ensures id in After(BOTH, es + [Desk(Manager.Write(c, kept))] + more).cluster.services
    ensures Manager.Live(After(BOTH, es + [Desk(Manager.Write(c, kept))] + more).desk, id)
  {
    WriteInBoth(es, c, kept, more);
    ManagerDeadlines.EndlessWrite(View(After(BOTH, es)), c, kept);
    ServedForEver(es + [Desk(Manager.Write(c, kept))], more, id);
  }

  lemma WriteInBoth(es: seq<Event>, c: CallId, kept: Manager.Expiry, more: seq<Event>)
    requires IsRun(BOTH, es + [Desk(Manager.Write(c, kept))] + more)
    ensures View(After(BOTH, es + [Desk(Manager.Write(c, kept))])) == Manager.Next(View(After(BOTH, es)), Manager.Write(c, kept))
  {
    var e := Desk(Manager.Write(c, kept));
    RunsTo(es + [e], more, 0);
    assert es + [e] + more[..0] == es + [e];
    Extend(BOTH, es, e);
    AlwaysPaired(es);
    StepFollows(After(BOTH, es), e);
  }
}
