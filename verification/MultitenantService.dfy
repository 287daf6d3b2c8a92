/**
 `MultitenantService` of `src/multitenant/mulittenant.service.ts`: the methods of one call among
 any number of others, each proved to produce one complete call of the `Multitenant` protocol,
 woven into a run.
 */
module MultitenantServices {
  import opened Runs
  import opened Multitenant

  function Actor(e: Event): int {
    match e
    case Expire(_) => -1
    case _ => e.c
  }

  /** aca-py's registry and the agency's cache, with the calls suspended on them. */
  class Tenants {
    var nextId: WalletId
    var issued: map<WalletId, Name>
    var wallets: map<WalletId, Wallet>
    var cache: map<Name, Entry>
    var calls: map<CallId, Call>
    ghost var trace: seq<Event>

    function Now(): State
      reads this
    {
      State(nextId, issued, wallets, cache, calls)
    }

    ghost predicate Valid()
      reads this
    {
      IsRun(TENANCY, trace) && After(TENANCY, trace) == Now()
    }

    constructor ()
      ensures Valid() && trace == []
    {
      nextId, issued, wallets, cache, calls, trace := 0, map[], map[], map[], map[], [];
    }

    ghost predicate KeptSince(c: CallId, before: map<CallId, Call>)
      reads this
    {
      (c in calls <==> c in before) && (c in calls ==> calls[c] == before[c])
    }

    /** One step of another call, or an expiry, if it can take place now. */
    method Step(c: CallId, e: Event)
      requires Valid()
      modifies this
      ensures Valid() && trace == if Actor(e) != c && Enabled(old(Now()), e) then old(trace) + [e] else old(trace)
      ensures KeptSince(c, old(calls))
    {
      if Actor(e) != c && Enabled(Now(), e) {
        Extend(TENANCY, trace, e);
        OtherCalls(Now(), e, c);
        var s := Next(Now(), e);
        nextId, issued, wallets, cache, calls := s.nextId, s.issued, s.wallets, s.cache, s.calls;
        trace := trace + [e];
      }
    }

    /** The events of `gap` that can take place while `c` waits. */
    method Others(c: CallId, gap: seq<Event>)
      requires Valid()
      modifies this
      ensures Valid() && trace == Admit(TENANCY, Actor, c, old(trace), gap) && old(trace) <= trace
      ensures KeptSince(c, old(calls))
    {
      for i := 0 to |gap|
        invariant Valid() && trace == Admit(TENANCY, Actor, c, old(trace), gap[..i]) && old(trace) <= trace
        invariant KeptSince(c, old(calls))
      {
        AdmitStep(TENANCY, Actor, c, old(trace), gap, i);
        Step(c, gap[i]);
      }
      assert gap[..|gap|] == gap;
    }

    /** Call `c` moves on, or ends, leaving the registry and the cache alone. */
    method Move(c: CallId, e: Event, call: Option<Call>)
      requires Valid() && Actor(e) == c && Enabled(Now(), e)
      requires Next(Now(), e) == Now().(calls := if call.Some? then calls[c := call.value] else calls - {c})
      modifies this`calls, this`trace
      ensures Valid() && trace == old(trace) + [e]
      ensures calls == if call.Some? then old(calls)[c := call.value] else old(calls) - {c}
    {
      Extend(TENANCY, trace, e);
      calls := if call.Some? then calls[c := call.value] else calls - {c};
      trace := trace + [e];
    }
  }

  datatype Created = Fresh(id: WalletId, token: Token) | Exists | Error

  /** Whether aca-py has the wallet, or one of this name, when the events of `t` have taken place. */
  ghost predicate Registered(t: seq<Event>, id: WalletId) { id in After(TENANCY, t).wallets }

  ghost predicate Known(t: seq<Event>, name: Name) { NameTaken(After(TENANCY, t), name) }

  /** What a create finds on its way: the name taken, the entry in the cache, a complete list, and a token. */
  datatype Course = Course(taken: bool, cached: Option<Entry>, complete: bool, fetched: bool)

  /** The list is all wallets of the moment it is scanned at, and the token is given for a wallet registered then. */
  ghost predicate TrueScan(t: seq<Event>, c: CallId, gaps: seq<seq<Event>>, name: Name, listing: seq<Listed>, ok: bool, p: Course)
    requires |gaps| >= 2
  {
    && (p.complete <==> Lists(After(TENANCY, Admit(TENANCY, Actor, c, t, gaps[0])), listing))
    && (p.complete && FirstNamed(listing, name).Some? ==>
          var scanned := Act(TENANCY, Actor, c, t, gaps[0], Scan(c, listing));
          p.fetched <==> ok && Registered(Admit(TENANCY, Actor, c, scanned, gaps[1]), FirstNamed(listing, name).value))
  }

  /** The entry is the cache's of the moment it is asked, and the scan that follows a miss is true. */
  ghost predicate TrueLookup(
    t: seq<Event>, c: CallId, gaps: seq<seq<Event>>, name: Name, listing: seq<Listed>, get: bool, ok: bool, p: Course)
    requires |gaps| >= 3
  {
    get ==>
      && p.cached == Cached(After(TENANCY, Admit(TENANCY, Actor, c, t, gaps[0])), name)
      && (p.cached.None? ==> TrueScan(Act(TENANCY, Actor, c, t, gaps[0], Lookup(c)), c, gaps[1..], name, listing, ok, p))
  }

  /** The name is taken exactly if aca-py knows it when it is asked, and the lookup that follows is true. */
  ghost predicate TrueCourse(
    t: seq<Event>, c: CallId, gaps: seq<seq<Event>>, name: Name, serial: nat, listing: seq<Listed>, get: bool, ok: bool, p: Course)
    requires |gaps| >= 4
  {
    && (p.taken <==> Known(Admit(TENANCY, Actor, c, t, gaps[0]), name))
    && (p.taken ==>
          TrueLookup(Act(TENANCY, Actor, c, t, gaps[0], Register(c, serial, false)), c, gaps[1..], name, listing, get, ok, p))
  }

  function Cached(s: State, name: Name): Option<Entry> {
    if name in s.cache then Some(s.cache[name]) else None
  }

  function ScanSteps(c: CallId, name: Name, listing: seq<Listed>, serial: nat, p: Course): seq<Event> {
    if !p.complete then [Fail(c)]
    else [Scan(c, listing)] +
         if FirstNamed(listing, name).None? then [] else [if p.fetched then FetchToken(c, serial) else Fail(c)]
  }

  function LookupSteps(c: CallId, name: Name, listing: seq<Listed>, serial: nat, get: bool, p: Course): seq<Event> {
    if !get then [Fail(c)]
    else [Lookup(c)] + if p.cached.Some? then [] else ScanSteps(c, name, listing, serial, p)
  }

  /** A wallet that exists is found: cached with the right key, or listed and opened. */
  predicate Found(name: Name, key: Key, listing: seq<Listed>, get: bool, p: Course) {
    get && if p.cached.Some? then p.cached.value.walletKey == key
           else p.complete && FirstNamed(listing, name).Some? && p.fetched
  }

  /** All events of a create after its beginning. */
  function CreateSteps(c: CallId, name: Name, key: Key, reply: Reply, serial: nat, listing: seq<Listed>,
                       get: bool, setOk: bool, p: Course): seq<Event>
  {
    if reply.NotDone? then [Fail(c)]
    else [Register(c, serial, reply.Lost?)] +
         if reply.Lost? then [] else HoldSteps(c, name, key, serial, listing, get, setOk, p)
  }

  function HoldSteps(c: CallId, name: Name, key: Key, serial: nat, listing: seq<Listed>,
                     get: bool, setOk: bool, p: Course): seq<Event>
  {
    (if p.taken then LookupSteps(c, name, listing, serial, get, p) else []) +
    if p.taken && !Found(name, key, listing, get, p) then [] else [if setOk then CacheWallet(c) else Fail(c)]
  }

  /** `gaps[i]` is what the others attempt before this call's `i`-th event. */
  class MultitenantService {
    const tenants: Tenants

    constructor (tenants: Tenants)
      ensures this.tenants == tenants
    {
      this.tenants := tenants;
    }

    /** The call has taken the steps of `script`, among the events of others, and no more. */
    ghost predicate Wove(c: CallId, t: seq<Event>, gaps: seq<seq<Event>>, script: seq<Event>)
      reads tenants
    {
      tenants.trace == Weave(TENANCY, Actor, c, t, gaps, script) && t <= tenants.trace
    }

    // ---------------------------------------------------------------- remote calls

    method CallCreateWallet(c: CallId, gap: seq<Event>, reply: Reply, serial: nat) returns (r: Created)
      requires tenants.Valid() && c in tenants.calls && tenants.calls[c].Creating?
      modifies tenants
      ensures tenants.Valid()
      ensures Acted(TENANCY, Actor, c, old(tenants.trace), gap,
                    if reply.NotDone? then Fail(c) else Register(c, serial, reply.Lost?), tenants.trace)
      ensures r.Error? <==> !reply.Answered?
      ensures r.Exists? <==> reply.Answered? && Known(Admit(TENANCY, Actor, c, old(tenants.trace), gap), old(tenants.calls[c].name))
      ensures r.Error? ==> c !in tenants.calls
      ensures var Creating(name, key) := old(tenants.calls[c]);
              && (r.Exists? ==> c in tenants.calls && tenants.calls[c] == Existing(name, key) && NameTaken(tenants.Now(), name))
              && (r.Fresh? ==> c in tenants.calls && tenants.calls[c] == Holding(name, key, r.id, r.token, true)
                               && r.id in tenants.wallets && tenants.wallets[r.id] == Wallet(name, key))
    {
      tenants.Others(c, gap);
      if reply.NotDone? {
        tenants.Move(c, Fail(c), None);
        return Error;
      }
      var Creating(name, key) := tenants.calls[c];
      if exists id | id in tenants.wallets :: tenants.wallets[id].name == name {
        tenants.Move(c, Register(c, serial, reply.Lost?), if reply.Lost? then None else Some(Existing(name, key)));
        return if reply.Lost? then Error else Exists;
      }
      r := NewWallet(c, name, key, reply.Lost?, serial);
    }

    method NewWallet(c: CallId, name: Name, key: Key, lost: bool, serial: nat) returns (r: Created)
      requires tenants.Valid() && c in tenants.calls && tenants.calls[c] == Creating(name, key)
      requires !NameTaken(tenants.Now(), name)
      modifies tenants
      ensures tenants.Valid() && tenants.trace == old(tenants.trace) + [Register(c, serial, lost)]
      ensures if lost then r.Error? && c !in tenants.calls
              else r.Fresh? && c in tenants.calls && tenants.calls[c] == Holding(name, key, r.id, r.token, true)
                   && r.id in tenants.wallets && tenants.wallets[r.id] == Wallet(name, key)
    {
      ghost var before := tenants.Now();
      ghost var e := Register(c, serial, lost);
      assert Enabled(before, e);
      Extend(TENANCY, tenants.trace, e);
      tenants.trace := tenants.trace + [e];
      var id := tenants.nextId;
      tenants.nextId := id + 1;
      tenants.issued := tenants.issued[id := name];
      tenants.wallets := tenants.wallets[id := Wallet(name, key)];
      r := if lost then Error else Fresh(id, Token(id, serial));
      tenants.calls := if lost then tenants.calls - {c} else tenants.calls[c := Holding(name, key, id, Token(id, serial), true)];
      assert tenants.Now() == Next(before, e);
    }

    // ---------------------------------------------------------------- the cache and the list of all wallets

    /** The scan of `handleCacheMiss`, with its `break`. */
    method FindWallet(allWallets: seq<Listed>, walletName: Name) returns (walletId: Option<WalletId>)
      ensures walletId == FirstNamed(allWallets, walletName)
    {
      walletId := None;
      var i := 0;
      while i < |allWallets|
        invariant 0 <= i <= |allWallets| && walletId.None?
        invariant FirstNamed(allWallets, walletName) == FirstNamed(allWallets[i..], walletName)
        decreases |allWallets| - i
      {
        if allWallets[i].name == walletName {
          walletId := Some(allWallets[i].walletId);
          break;
        }
        assert allWallets[i..][1..] == allWallets[i + 1..];
        i := i + 1;
      }
    }

    /**
     `listing` is what the server answers; an answer that is not the list of all wallets counts as a
     failure.  `used` counts the events of the call.
     */
    method HandleCacheMiss(c: CallId, gaps: seq<seq<Event>>, listing: seq<Listed>, serial: nat, ok: bool)
      returns (r: Option<(WalletId, Token)>, used: nat, ghost p: Course)
      requires tenants.Valid() && c in tenants.calls && tenants.calls[c].Scanning? && |gaps| >= 2
      modifies tenants
      ensures tenants.Valid() && p.taken && p.cached.None?
      ensures TrueScan(old(tenants.trace), c, gaps, old(tenants.calls[c].name), listing, ok, p)
      ensures var Scanning(name, key) := old(tenants.calls[c]);
              && Wove(c, old(tenants.trace), gaps, ScanSteps(c, name, listing, serial, p))
              && used == |ScanSteps(c, name, listing, serial, p)|
              && (r.Some? <==> Found(name, key, listing, true, p))
              && (r.Some? ==> c in tenants.calls && tenants.calls[c] == Holding(name, key, r.value.0, r.value.1, false)
                              && FirstNamed(listing, name) == Some(r.value.0) && r.value.1 == Token(r.value.0, serial))
      ensures r.None? ==> c !in tenants.calls
    {
      ghost var t := tenants.trace;
      var Scanning(name, key) := tenants.calls[c];
      p := Course(true, None, true, false);
      var complete, walletId := ScanWallets(c, gaps[0], listing);
      if !complete || walletId.None? {
        p := p.(complete := complete);
        WeaveFirst(TENANCY, Actor, c, t, gaps, if complete then Scan(c, listing) else Fail(c), []);
        return None, 1, p;
      }
      r := CallGetToken(c, walletId.value, gaps[1], serial, ok);
      used, p := 2, p.(fetched := r.Some?);
      WeaveTwo(TENANCY, Actor, c, t, gaps, Scan(c, listing), if r.Some? then FetchToken(c, serial) else Fail(c));
    }

    /** `callGetAllWallets` and the scan of what it answers. */
    method ScanWallets(c: CallId, gap: seq<Event>, listing: seq<Listed>) returns (complete: bool, walletId: Option<WalletId>)
      requires tenants.Valid() && c in tenants.calls && tenants.calls[c].Scanning?
      modifies tenants
      ensures tenants.Valid()
      ensures complete <==> Lists(After(TENANCY, Admit(TENANCY, Actor, c, old(tenants.trace), gap)), listing)
      ensures Acted(TENANCY, Actor, c, old(tenants.trace), gap, if complete then Scan(c, listing) else Fail(c), tenants.trace)
      ensures var Scanning(name, key) := old(tenants.calls[c]);
              && (complete ==> walletId == FirstNamed(listing, name))
              && if complete && walletId.Some? then c in tenants.calls && tenants.calls[c] == Scanned(name, key, walletId.value)
                 else c !in tenants.calls
    {
      tenants.Others(c, gap);
      var Scanning(name, key) := tenants.calls[c];
      complete, walletId := Lists(tenants.Now(), listing), None;
      if complete {
        walletId := FindWallet(listing, name);
        tenants.Move(c, Scan(c, listing), if walletId.Some? then Some(Scanned(name, key, walletId.value)) else None);
      } else {
        tenants.Move(c, Fail(c), None);
      }
    }

    method CallGetToken(c: CallId, walletId: WalletId, gap: seq<Event>, serial: nat, ok: bool)
      returns (r: Option<(WalletId, Token)>)
      requires tenants.Valid() && c in tenants.calls && tenants.calls[c].Scanned? && tenants.calls[c].id == walletId
      modifies tenants
      ensures tenants.Valid()
      ensures Acted(TENANCY, Actor, c, old(tenants.trace), gap,
                    if r.Some? then FetchToken(c, serial) else Fail(c), tenants.trace)
      ensures r.None? ==> c !in tenants.calls
      ensures r.Some? <==> ok && Registered(Admit(TENANCY, Actor, c, old(tenants.trace), gap), walletId)
      ensures var Scanned(name, key, id) := old(tenants.calls[c]);
              r.Some? ==> r.value == (id, Token(id, serial)) && c in tenants.calls
                          && tenants.calls[c] == Holding(name, key, id, Token(id, serial), false)
    {
      tenants.Others(c, gap);
      var Scanned(name, key, id) := tenants.calls[c];
      if ok && id in tenants.wallets {
        tenants.Move(c, FetchToken(c, serial), Some(Holding(name, key, id, Token(id, serial), false)));
        r := Some((id, Token(id, serial)));
      } else {
        tenants.Move(c, Fail(c), None);
        r := None;
      }
    }

    method GetTokenAndWalletId(c: CallId, gaps: seq<seq<Event>>, listing: seq<Listed>, serial: nat, get: bool, ok: bool)
      returns (r: Option<(WalletId, Token)>, used: nat, ghost p: Course)
      requires tenants.Valid() && c in tenants.calls && tenants.calls[c].Existing? && |gaps| >= 3
      modifies tenants
      ensures tenants.Valid() && p.taken
      ensures var Existing(name, key) := old(tenants.calls[c]);
              && Wove(c, old(tenants.trace), gaps, LookupSteps(c, name, listing, serial, get, p))
              && used == |LookupSteps(c, name, listing, serial, get, p)|
              && (r.Some? <==> Found(name, key, listing, get, p))
              && (r.Some? ==> c in tenants.calls && tenants.calls[c] == Holding(name, key, r.value.0, r.value.1, false))
              && (r.Some? ==> if p.cached.Some? then r.value == (p.cached.value.walletId, p.cached.value.token)
                              else FirstNamed(listing, name) == Some(r.value.0) && r.value.1 == Token(r.value.0, serial))
      ensures r.None? ==> c !in tenants.calls
      ensures TrueLookup(old(tenants.trace), c, gaps, old(tenants.calls[c].name), listing, get, ok, p)
    {
      ghost var t := tenants.trace;
      var Existing(name, key) := tenants.calls[c];
      WeaveFirst(TENANCY, Actor, c, t, gaps, if get then Lookup(c) else Fail(c), []);
      var agent := ReadCache(c, gaps[0], get);
      used, p := 1, Course(true, agent, false, false);
      if !get || agent.Some? {
        var right := get && agent.value.walletKey == key;
        return if right then Some((agent.value.walletId, agent.value.token)) else None, used, p;
      }
      r, used, p := HandleCacheMiss(c, gaps[1..], listing, serial, ok);
      used := used + 1;
      WeaveFirst(TENANCY, Actor, c, t, gaps, Lookup(c), ScanSteps(c, name, listing, serial, p));
    }

    /** The `cache.get` of a create. */
    method ReadCache(c: CallId, gap: seq<Event>, get: bool) returns (agent: Option<Entry>)
      requires tenants.Valid() && c in tenants.calls && tenants.calls[c].Existing?
      modifies tenants
      ensures tenants.Valid()
      ensures Acted(TENANCY, Actor, c, old(tenants.trace), gap, if get then Lookup(c) else Fail(c), tenants.trace)
      ensures get ==> agent == Cached(After(TENANCY, Admit(TENANCY, Actor, c, old(tenants.trace), gap)), old(tenants.calls[c].name))
      ensures var Existing(name, key) := old(tenants.calls[c]);
              if !get || (agent.Some? && agent.value.walletKey != key) then c !in tenants.calls
              else c in tenants.calls
                   && tenants.calls[c] == if agent.None? then Scanning(name, key)
                                          else Holding(name, key, agent.value.walletId, agent.value.token, false)
    {
      tenants.Others(c, gap);
      var Existing(name, key) := tenants.calls[c];
      agent := Cached(tenants.Now(), name);
      if !get {
        tenants.Move(c, Fail(c), None);
      } else if agent.None? {
        tenants.Move(c, Lookup(c), Some(Scanning(name, key)));
      } else {
        var right := agent.value.walletKey == key;
        tenants.Move(c, Lookup(c), if right then Some(Holding(name, key, agent.value.walletId, agent.value.token, false)) else None);
      }
    }

    method AddWalletToCache(c: CallId, gap: seq<Event>, ok: bool)
      requires tenants.Valid() && c in tenants.calls && tenants.calls[c].Holding?
      modifies tenants
      ensures tenants.Valid() && c !in tenants.calls
      ensures Acted(TENANCY, Actor, c, old(tenants.trace), gap, if ok then CacheWallet(c) else Fail(c), tenants.trace)
      ensures var Holding(name, key, id, token, _) := old(tenants.calls[c]);
              ok ==> tenants.cache == After(TENANCY, Admit(TENANCY, Actor, c, old(tenants.trace), gap)).cache[name := Entry(id, key, token)]
    {
      tenants.Others(c, gap);
      if !ok {
        tenants.Move(c, Fail(c), None);
        return;
      }
      ghost var before := tenants.Now();
      assert Enabled(before, CacheWallet(c));
      Extend(TENANCY, tenants.trace, CacheWallet(c));
      tenants.trace := tenants.trace + [CacheWallet(c)];
      var Holding(name, key, id, token, _) := tenants.calls[c];
      tenants.cache := tenants.cache[name := Entry(id, key, token)];
      tenants.calls := tenants.calls - {c};
      assert tenants.Now() == Next(before, CacheWallet(c));
    }

    // ---------------------------------------------------------------- the two requests

    /** The wallet id and token that end up in the cache, or nothing when the call throws. */
    method CreateWallet(
      c: CallId, walletName: Name, walletKey: Key, gaps: seq<seq<Event>>,
      reply: Reply, serial: nat, listing: seq<Listed>, get: bool, tokenOk: bool, setOk: bool)
      returns (r: Option<(WalletId, Token)>, ghost p: Course)
      requires tenants.Valid() && c !in tenants.calls && |gaps| == 6
      modifies tenants
      ensures tenants.Valid() && c !in tenants.calls
      ensures Wove(c, old(tenants.trace), gaps,
                   [BeginCreate(c, walletName, walletKey)]
                   + CreateSteps(c, walletName, walletKey, reply, serial, listing, get, setOk, p))
      ensures r.Some? <==> reply.Answered? && setOk && (p.taken ==> Found(walletName, walletKey, listing, get, p))
      ensures var begun := Act(TENANCY, Actor, c, old(tenants.trace), gaps[0], BeginCreate(c, walletName, walletKey));
              reply.Answered? ==> TrueCourse(begun, c, gaps[1..], walletName, serial, listing, get, tokenOk, p)
      ensures r.Some? ==> walletName in tenants.cache && tenants.cache[walletName] == Entry(r.value.0, walletKey, r.value.1)
    {
      ghost var t := tenants.trace;
      BeginCall(c, gaps[0], BeginCreate(c, walletName, walletKey), Creating(walletName, walletKey));
      r, p := Proceed(c, gaps[1..], reply, serial, listing, get, tokenOk, setOk);
      WeaveFirst(TENANCY, Actor, c, t, gaps, BeginCreate(c, walletName, walletKey),
                 CreateSteps(c, walletName, walletKey, reply, serial, listing, get, setOk, p));
    }

    method BeginCall(c: CallId, gap: seq<Event>, e: Event, call: Call)
      requires tenants.Valid() && c !in tenants.calls
      requires || (call.Creating? && e == BeginCreate(c, call.name, call.key))
               || (call.Removing? && e == BeginRemove(c, call.name, call.key))
      modifies tenants
      ensures tenants.Valid() && Acted(TENANCY, Actor, c, old(tenants.trace), gap, e, tenants.trace)
      ensures c in tenants.calls && tenants.calls[c] == call
    {
      tenants.Others(c, gap);
      tenants.Move(c, e, Some(call));
    }

    method Proceed(
      c: CallId, gaps: seq<seq<Event>>,
      reply: Reply, serial: nat, listing: seq<Listed>, get: bool, tokenOk: bool, setOk: bool)
      returns (r: Option<(WalletId, Token)>, ghost p: Course)
      requires tenants.Valid() && c in tenants.calls && tenants.calls[c].Creating? && |gaps| == 5
      modifies tenants
      ensures tenants.Valid() && c !in tenants.calls
      ensures var Creating(name, key) := old(tenants.calls[c]);
              && Wove(c, old(tenants.trace), gaps, CreateSteps(c, name, key, reply, serial, listing, get, setOk, p))
              && (reply.Answered? ==> TrueCourse(old(tenants.trace), c, gaps, name, serial, listing, get, tokenOk, p))
              && (r.Some? <==> reply.Answered? && setOk && (p.taken ==> Found(name, key, listing, get, p)))
              && (r.Some? ==> name in tenants.cache && tenants.cache[name] == Entry(r.value.0, key, r.value.1))
    {
      ghost var t := tenants.trace;
      var Creating(name, key) := tenants.calls[c];
      WeaveFirst(TENANCY, Actor, c, t, gaps, if reply.NotDone? then Fail(c) else Register(c, serial, reply.Lost?), []);
      var created := CallCreateWallet(c, gaps[0], reply, serial);
      p := Course(false, None, false, false);
      if created.Error? {
        return None, p;
      }
      r, p := Hold(c, gaps[1..], created, name, key, serial, listing, get, tokenOk, setOk);
      WeaveFirst(TENANCY, Actor, c, t, gaps, Register(c, serial, false), HoldSteps(c, name, key, serial, listing, get, setOk, p));
    }

    /** What follows an answered registration: find a wallet that exists already, and cache it. */
    method Hold(
      c: CallId, gaps: seq<seq<Event>>, created: Created, name: Name, key: Key,
      serial: nat, listing: seq<Listed>, get: bool, tokenOk: bool, setOk: bool)
      returns (r: Option<(WalletId, Token)>, ghost p: Course)
      requires tenants.Valid() && c in tenants.calls && |gaps| == 4 && !created.Error?
      requires tenants.calls[c] == if created.Exists? then Existing(name, key) else Holding(name, key, created.id, created.token, true)
      modifies tenants
      ensures tenants.Valid() && c !in tenants.calls && p.taken == created.Exists?
      ensures p.taken ==> TrueLookup(old(tenants.trace), c, gaps, name, listing, get, tokenOk, p)
      ensures Wove(c, old(tenants.trace), gaps, HoldSteps(c, name, key, serial, listing, get, setOk, p))
      ensures r.Some? <==> setOk && (p.taken ==> Found(name, key, listing, get, p))
      ensures r.Some? ==> name in tenants.cache && tenants.cache[name] == Entry(r.value.0, key, r.value.1)
    {
      ghost var t := tenants.trace;
      var used := 0;
      if created.Exists? {
        r, used, p := GetTokenAndWalletId(c, gaps, listing, serial, get, tokenOk);
        ghost var steps := LookupSteps(c, name, listing, serial, get, p);
        if r.None? {
          assert steps + [] == steps;
          return;
        }
        WeaveLast(TENANCY, Actor, c, t, gaps, steps, if setOk then CacheWallet(c) else Fail(c));
      } else {
        r, p := Some((created.id, created.token)), Course(false, None, false, false);
        WeaveLast(TENANCY, Actor, c, t, gaps, [], if setOk then CacheWallet(c) else Fail(c));
      }
      AddWalletToCache(c, gaps[used], setOk);
      if !setOk {
        r := None;
      }
    }

    /** The wallet that is removed is the one the cache gives when it is asked; the entry stays. */
    method RemoveWallet(c: CallId, walletName: Name, walletKey: Key, gaps: seq<seq<Event>>, get: bool, reply: Reply)
      returns (ok: bool, ghost asked: Option<WalletId>, ghost done: bool)
      requires tenants.Valid() && c !in tenants.calls && |gaps| == 3
      modifies tenants
      ensures tenants.Valid() && c !in tenants.calls
      ensures Wove(c, old(tenants.trace), gaps,
                   [BeginRemove(c, walletName, walletKey)] + RemoveSteps(c, get, asked, done, reply))
      ensures var begun := Act(TENANCY, Actor, c, old(tenants.trace), gaps[0], BeginRemove(c, walletName, walletKey));
              get ==> asked == CachedId(After(TENANCY, Admit(TENANCY, Actor, c, begun, gaps[1])), walletName)
      ensures ok <==> get && asked.Some? && done && reply.Answered?
      ensures get && asked.Some? && done ==> asked.value !in tenants.wallets
      ensures var begun := Act(TENANCY, Actor, c, old(tenants.trace), gaps[0], BeginRemove(c, walletName, walletKey));
              var fetched := Act(TENANCY, Actor, c, begun, gaps[1], Fetch(c));
              get && asked.Some? ==>
                (done <==> !reply.NotDone? && Registered(Admit(TENANCY, Actor, c, fetched, gaps[2]), asked.value))
    {
      ghost var t := tenants.trace;
      BeginCall(c, gaps[0], BeginRemove(c, walletName, walletKey), Removing(walletName, walletKey));
      ok, asked, done := Withdraw(c, gaps[1..], get, reply);
      WeaveFirst(TENANCY, Actor, c, t, gaps, BeginRemove(c, walletName, walletKey), RemoveSteps(c, get, asked, done, reply));
    }

    function CachedId(s: State, name: Name): Option<WalletId> {
      if name in s.cache then Some(s.cache[name].walletId) else None
    }

    /** All events of a removal after its beginning: `done` where aca-py carries it out. */
    function RemoveSteps(c: CallId, get: bool, asked: Option<WalletId>, done: bool, reply: Reply): seq<Event> {
      if !get then [Fail(c)]
      else if asked.None? then [Fetch(c)]
      else [Fetch(c), if done then Remove(c, reply.Lost?) else Fail(c)]
    }

    method Withdraw(c: CallId, gaps: seq<seq<Event>>, get: bool, reply: Reply)
      returns (ok: bool, ghost asked: Option<WalletId>, ghost done: bool)
      requires tenants.Valid() && c in tenants.calls && tenants.calls[c].Removing? && |gaps| == 2
      modifies tenants
      ensures tenants.Valid() && c !in tenants.calls
      ensures Wove(c, old(tenants.trace), gaps, RemoveSteps(c, get, asked, done, reply))
      ensures get ==> asked == CachedId(After(TENANCY, Admit(TENANCY, Actor, c, old(tenants.trace), gaps[0])), old(tenants.calls[c].name))
      ensures ok <==> get && asked.Some? && done && reply.Answered?
      ensures get && asked.Some? && done ==> asked.value !in tenants.wallets
      ensures var fetched := Act(TENANCY, Actor, c, old(tenants.trace), gaps[0], Fetch(c));
              get && asked.Some? ==>
                (done <==> !reply.NotDone? && Registered(Admit(TENANCY, Actor, c, fetched, gaps[1]), asked.value))
    {
      ghost var t := tenants.trace;
      WeaveFirst(TENANCY, Actor, c, t, gaps, if get then Fetch(c) else Fail(c), []);
      var id := FetchEntry(c, gaps[0], get);
      ok, asked, done := false, id, false;
      if get && id.Some? {
        ghost var removed;
        ok, removed := CallRemoveWallet(c, gaps[1], reply);
        done := removed;
        WeaveTwo(TENANCY, Actor, c, t, gaps, Fetch(c), if done then Remove(c, reply.Lost?) else Fail(c));
      }
    }

    /** The `cache.get` of a removal. */
    method FetchEntry(c: CallId, gap: seq<Event>, get: bool) returns (id: Option<WalletId>)
      requires tenants.Valid() && c in tenants.calls && tenants.calls[c].Removing?
      modifies tenants
      ensures tenants.Valid()
      ensures Acted(TENANCY, Actor, c, old(tenants.trace), gap, if get then Fetch(c) else Fail(c), tenants.trace)
      ensures get ==> id == CachedId(After(TENANCY, Admit(TENANCY, Actor, c, old(tenants.trace), gap)), old(tenants.calls[c].name))
      ensures if get && id.Some?
              then c in tenants.calls && tenants.calls[c] == Deleting(old(tenants.calls[c].name), old(tenants.calls[c].key), id.value)
              else c !in tenants.calls
    {
      tenants.Others(c, gap);
      var Removing(name, key) := tenants.calls[c];
      id := CachedId(tenants.Now(), name);
      if get {
        tenants.Move(c, Fetch(c), if id.Some? then Some(Deleting(name, key, id.value)) else None);
      } else {
        tenants.Move(c, Fail(c), None);
      }
    }

    method CallRemoveWallet(c: CallId, gap: seq<Event>, reply: Reply) returns (ok: bool, ghost done: bool)
      requires tenants.Valid() && c in tenants.calls && tenants.calls[c].Deleting?
      modifies tenants
      ensures tenants.Valid() && c !in tenants.calls
      ensures done <==> !reply.NotDone? && Registered(Admit(TENANCY, Actor, c, old(tenants.trace), gap), old(tenants.calls[c].id))
      ensures Acted(TENANCY, Actor, c, old(tenants.trace), gap, if done then Remove(c, reply.Lost?) else Fail(c), tenants.trace)
      ensures (ok <==> done && reply.Answered?) && (done ==> old(tenants.calls[c].id) !in tenants.wallets)
    {
      tenants.Others(c, gap);
      var id := tenants.calls[c].id;
      done := !reply.NotDone? && id in tenants.wallets;
      if reply.NotDone? || id !in tenants.wallets {
        tenants.Move(c, Fail(c), None);
        return false, false;
      }
      Unregister(c, reply.Lost?);
      ok := reply.Answered?;
    }

    method Unregister(c: CallId, lost: bool)
      requires tenants.Valid() && Enabled(tenants.Now(), Remove(c, lost))
      modifies tenants
      ensures tenants.Valid() && tenants.trace == old(tenants.trace) + [Remove(c, lost)]
      ensures c !in tenants.calls && tenants.wallets == old(tenants.wallets) - {old(tenants.calls[c].id)}
    {
      ghost var before := tenants.Now();
      Extend(TENANCY, tenants.trace, Remove(c, lost));
      tenants.trace := tenants.trace + [Remove(c, lost)];
      tenants.wallets := tenants.wallets - {tenants.calls[c].id};
      tenants.calls := tenants.calls - {c};
      assert tenants.Now() == Next(before, Remove(c, lost));
    }
  }
}
