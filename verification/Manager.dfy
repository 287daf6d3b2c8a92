/**
 The life of an agent: `src/manager/agent.manager.service.ts` and the TTL of
 `src/manager/agent.config.ts`.

 The state is a clock, the agents that run, the cache with an expiry for each entry, and the
 spin-down timers, which are set by every spin-up and never cancelled.  Spin-ups and
 spin-downs interleave at every `await`.  Starting and stopping a container is one step here:
 a start is refused when the agent runs, and may otherwise fail with or without having started
 it.  Times are milliseconds.
 */
module Manager {
  import opened Runs

  type AgentId = string
  type CallId = nat

  const DEFAULT_TTL := 3600_000
  const MAX_DELAY := 0x7fff_ffff // larger delays make `setTimeout` fire after 1 ms

  datatype Ttl = Infinite | Finite(ms: int)

  /** The constructor of `AgentConfig`: 0 means for ever and a missing value means an hour. */
  function NormaliseTtl(ttl: Option<int>): (r: Ttl)
    ensures r != Finite(0)
    ensures r.Infinite? <==> ttl == Some(0)
    ensures r.Finite? ==> r.ms == if ttl.Some? then ttl.value else 3600000
  {
    match ttl
    case None => Finite(DEFAULT_TTL)
    case Some(ms) => if ms == 0 then Infinite else Finite(ms)
  }

  predicate Timed(ttl: Ttl) { ttl.Finite? && ttl.ms > 0 }

  function Delay(ttl: Ttl): nat
    requires Timed(ttl)
  {
    if ttl.ms > MAX_DELAY then 1 else ttl.ms
  }

  /** `setSpinDownJob` */
  function NewTimers(id: AgentId, ttl: Ttl, now: nat): multiset<Timer> {
    if Timed(ttl) then multiset{Timer(id, now + Delay(ttl))} else multiset{}
  }

  datatype Expiry = Never | At(time: int)

  datatype Timer = Timer(id: AgentId, due: nat)

  /** A spin-up, by the step it is about to take.  `wrote` is when it first wrote the cache. */
  datatype UpStage =
    | Begun              // before startAgent
    | Started            // startAgent succeeded; before setAgentCache
    | Refused            // startAgent threw; before cache.get
    | Missing            // the agent was not in the cache; before the extra setAgentCache
    | Added(wrote: nat)  // it was added; before reading it back
    | Found(first: Option<nat>) // the cache has the agent; before createConnection and setAgentCache
    | Cached(wrote: nat) // before setSpinDownJob

  /** `owes`: the call has started the container and has not written the cache since. */
  datatype Up = Up(id: AgentId, ttl: Ttl, stage: UpStage, owes: bool)

  /** A spin-down: `Ordered` before its `cache.del`, `Deleted` before its `stopAgent`.  A timer's has the time it was due. */
  datatype Down = Ordered(id: AgentId, due: Option<nat>) | Deleted(id: AgentId)

  datatype State = State(
    now: nat, running: set<AgentId>, cache: map<AgentId, Expiry>, timers: multiset<Timer>,
    ups: map<CallId, Up>, downs: map<CallId, Down>)

  datatype Event =
    | Tick(ms: nat)
    | BeginUp(c: CallId, id: AgentId, ttl: Ttl)
    | Start(c: CallId, reply: Reply)
    | Look(c: CallId)
    | Add(c: CallId, kept: Expiry)     // `kept` is how long the store keeps the entry
    | ReadBack(c: CallId)
    | Write(c: CallId, kept: Expiry)
    | Arm(c: CallId)
    | Abort(c: CallId)                 // an await of spin-up `c` throws
    | BeginDown(c: CallId, id: AgentId)
    | Fire(c: CallId, timer: Timer)    // spin-down `c` begins
    | Delete(c: CallId)
    | Stop(c: CallId)
    | GiveUp(c: CallId)                // an await of spin-down `c` throws: caught and logged

  predicate Live(s: State, id: AgentId) {
    id in s.cache && (s.cache[id].At? ==> s.now < s.cache[id].time)
  }

  /** `setAgentCache` asks for one second more than the TTL; what a store does with a negative TTL is its own business. */
  predicate MayKeep(ttl: Ttl, now: nat, kept: Expiry) {
    match ttl
    case Infinite => kept == Never
    case Finite(ms) => ms >= 0 ==> kept == At(now + ms + 1000)
  }

  predicate Enabled(s: State, e: Event) {
    match e
    case Tick(_) => true
    case BeginUp(c, _, ttl) => c !in s.ups && c !in s.downs && ttl != Finite(0)
    case Start(c, _) => c in s.ups && s.ups[c].stage.Begun?
    case Look(c) => c in s.ups && s.ups[c].stage.Refused?
    case Add(c, kept) => c in s.ups && s.ups[c].stage.Missing? && MayKeep(s.ups[c].ttl, s.now, kept)
    case ReadBack(c) => c in s.ups && s.ups[c].stage.Added?
    case Write(c, kept) =>
      c in s.ups && (s.ups[c].stage.Started? || s.ups[c].stage.Found?) && MayKeep(s.ups[c].ttl, s.now, kept)
    case Arm(c) => c in s.ups && s.ups[c].stage.Cached?
    case Abort(c) => c in s.ups && !s.ups[c].stage.Cached?
    case BeginDown(c, _) => c !in s.ups && c !in s.downs
    case Fire(c, timer) => c !in s.ups && c !in s.downs && timer in s.timers && timer.due <= s.now
    case Delete(c) => c in s.downs && s.downs[c].Ordered?
    case Stop(c) => c in s.downs && s.downs[c].Deleted?
    case GiveUp(c) => c in s.downs
  }

  function Goto(s: State, c: CallId, stage: UpStage, owes: bool): State
    requires c in s.ups
  {
    s.(ups := s.ups[c := s.ups[c].(stage := stage, owes := owes)])
  }

  function Next(s: State, e: Event): State {
    if !Enabled(s, e) then s else
    match e
    case Tick(ms) => s.(now := s.now + ms)
    case BeginUp(c, id, ttl) => s.(ups := s.ups[c := Up(id, ttl, Begun, false)])
    case Start(c, reply) => // whatever the error, the spin-up goes on as if the container were running already
      var id := s.ups[c].id;
      if id in s.running || reply.NotDone? then Goto(s, c, Refused, false)
      else Goto(s, c, if reply.Answered? then Started else Refused, true).(running := s.running + {id})
    case Look(c) => Goto(s, c, if Live(s, s.ups[c].id) then Found(None) else Missing, s.ups[c].owes)
    case Add(c, kept) => Goto(s, c, Added(s.now), false).(cache := s.cache[s.ups[c].id := kept])
    case ReadBack(c) =>
      if Live(s, s.ups[c].id) then Goto(s, c, Found(Some(s.ups[c].stage.wrote)), false)
      else s.(ups := s.ups - {c}) // the original exception is thrown again
    case Write(c, kept) =>
      var u := s.ups[c];
      var wrote := if u.stage.Found? && u.stage.first.Some? then u.stage.first.value else s.now;
      Goto(s, c, Cached(wrote), false).(cache := s.cache[u.id := kept])
    case Arm(c) =>
      var u := s.ups[c];
      s.(ups := s.ups - {c}, timers := s.timers + NewTimers(u.id, u.ttl, s.now))
    case Abort(c) => s.(ups := s.ups - {c})
    case BeginDown(c, id) => s.(downs := s.downs[c := Ordered(id, None)])
    case Fire(c, timer) =>
      s.(timers := s.timers - multiset{timer}, downs := s.downs[c := Ordered(timer.id, Some(timer.due))])
    case Delete(c) =>
      s.(cache := s.cache - {s.downs[c].id}, downs := s.downs[c := Deleted(s.downs[c].id)])
    case Stop(c) => s.(running := s.running - {s.downs[c].id}, downs := s.downs - {c})
    case GiveUp(c) => s.(downs := s.downs - {c})
  }

  ghost const LIFE: System<State, Event> := System(State(0, {}, map[], multiset{}, map[], map[]), Enabled, Next)
}
