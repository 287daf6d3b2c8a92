/**
 Wallets on the multitenant agent, `src/multitenant/mulittenant.service.ts`.

 The state is aca-py's wallet registry, the agency's cache and the calls in flight.  Creating a
 wallet registers it, or looks it up in the cache or in the list of all wallets when it exists
 already, and then caches its id; removing one takes the id from the cache and leaves the entry
 behind.  Cache entries may expire at any moment, whatever their TTL.
 */
module Multitenant {
  import opened Runs

  type Name = string
  type Key = string
  type WalletId = nat // aca-py never hands out an id twice
  type CallId = nat

  /** aca-py's tokens give access to one wallet; each request may get a new one. */
  datatype Token = Token(wallet: WalletId, serial: nat)

  datatype Wallet = Wallet(name: Name, key: Key)

  datatype Entry = Entry(walletId: WalletId, walletKey: Key, token: Token)

  /** One line of the list of all wallets. */
  datatype Listed = Listed(walletId: WalletId, name: Name)

  /** A call in flight, by the request it is about to make.  `made`: it has registered the wallet itself. */
  datatype Call =
    | Creating(name: Name, key: Key)                       // before callCreateWallet
    | Existing(name: Name, key: Key)                       // it exists already; before cache.get
    | Scanning(name: Name, key: Key)                       // not cached; before callGetAllWallets
    | Scanned(name: Name, key: Key, id: WalletId)          // before callGetToken
    | Holding(name: Name, key: Key, id: WalletId, token: Token, made: bool) // before cache.set
    | Removing(name: Name, key: Key)                       // before cache.get
    | Deleting(name: Name, key: Key, id: WalletId)         // before callRemoveWallet

  /** `issued` remembers the name every id was handed out for. */
  datatype State = State(
    nextId: WalletId, issued: map<WalletId, Name>, wallets: map<WalletId, Wallet>,
    cache: map<Name, Entry>, calls: map<CallId, Call>)

  datatype Event =
    | BeginCreate(c: CallId, name: Name, key: Key)
    | BeginRemove(c: CallId, name: Name, key: Key)
    | Register(c: CallId, serial: nat, lost: bool) // callCreateWallet reaches aca-py
    | Lookup(c: CallId)
    | Scan(c: CallId, listing: seq<Listed>)        // the list comes back in any order
    | FetchToken(c: CallId, serial: nat)
    | CacheWallet(c: CallId)
    | Fetch(c: CallId)
    | Remove(c: CallId, lost: bool)                // callRemoveWallet reaches aca-py
    | Fail(c: CallId)                              // an await throws and nothing was carried out
    | Expire(name: Name)

  predicate NameTaken(s: State, name: Name) {
    exists id | id in s.wallets :: s.wallets[id].name == name
  }

  /** The list names every registered wallet and no other. */
  predicate Lists(s: State, listing: seq<Listed>) {
    && (forall i | 0 <= i < |listing| ::
          listing[i].walletId in s.wallets && s.wallets[listing[i].walletId].name == listing[i].name)
    && (forall id | id in s.wallets :: Listed(id, s.wallets[id].name) in listing)
  }

  /** The first wallet of the list with this name. */
  function FirstNamed(listing: seq<Listed>, name: Name): Option<WalletId> {
    if listing == [] then None
    else if listing[0].name == name then Some(listing[0].walletId)
    else FirstNamed(listing[1..], name)
  }

  predicate Enabled(s: State, e: Event) {
    match e
    case BeginCreate(c, _, _) => c !in s.calls
    case BeginRemove(c, _, _) => c !in s.calls
    case Register(c, _, _) => c in s.calls && s.calls[c].Creating?
    case Lookup(c) => c in s.calls && s.calls[c].Existing?
    case Scan(c, listing) => c in s.calls && s.calls[c].Scanning? && Lists(s, listing)
    case FetchToken(c, _) => c in s.calls && s.calls[c].Scanned? && s.calls[c].id in s.wallets
    case CacheWallet(c) => c in s.calls && s.calls[c].Holding?
    case Fetch(c) => c in s.calls && s.calls[c].Removing?
    case Remove(c, _) => c in s.calls && s.calls[c].Deleting? && s.calls[c].id in s.wallets
    case Fail(c) => c in s.calls
    case Expire(name) => name in s.cache
  }

  function Goto(s: State, c: CallId, call: Call): State { s.(calls := s.calls[c := call]) }

  function Finish(s: State, c: CallId): State { s.(calls := s.calls - {c}) }

  function Next(s: State, e: Event): State {
    if !Enabled(s, e) then s else
    match e
    case BeginCreate(c, name, key) => Goto(s, c, Creating(name, key))
    case BeginRemove(c, name, key) => Goto(s, c, Removing(name, key))
    case Register(c, serial, lost) =>
      var Creating(name, key) := s.calls[c];
      if NameTaken(s, name) then if lost then Finish(s, c) else Goto(s, c, Existing(name, key))
      else
        var id := s.nextId;
        var t := if lost then Finish(s, c) else Goto(s, c, Holding(name, key, id, Token(id, serial), true));
        t.(nextId := id + 1, issued := s.issued[id := name], wallets := s.wallets[id := Wallet(name, key)])
    case Lookup(c) =>
      var Existing(name, key) := s.calls[c];
      if name !in s.cache then Goto(s, c, Scanning(name, key))
      else if s.cache[name].walletKey != key then Finish(s, c)
      else Goto(s, c, Holding(name, key, s.cache[name].walletId, s.cache[name].token, false))
    case Scan(c, listing) =>
      var Scanning(name, key) := s.calls[c];
      var found := FirstNamed(listing, name);
      if found.None? then Finish(s, c) else Goto(s, c, Scanned(name, key, found.value))
    case FetchToken(c, serial) =>
      var Scanned(name, key, id) := s.calls[c];
      Goto(s, c, Holding(name, key, id, Token(id, serial), false))
    case CacheWallet(c) =>
      var Holding(name, key, id, token, _) := s.calls[c];
      Finish(s, c).(cache := s.cache[name := Entry(id, key, token)])
    case Fetch(c) =>
      var Removing(name, key) := s.calls[c];
      if name in s.cache then Goto(s, c, Deleting(name, key, s.cache[name].walletId)) else Finish(s, c)
    case Remove(c, _) => Finish(s, c).(wallets := s.wallets - {s.calls[c].id})
    case Fail(c) => Finish(s, c)
    case Expire(name) => s.(cache := s.cache - {name})
  }

  ghost const TENANCY: System<State, Event> := System(State(0, map[], map[], map[], map[]), Enabled, Next)

  // ---------------------------------------------------------------- every id belongs to its name

  /** The wallet ids a call works with were issued for the name it works for. */
  ghost predicate Belongs(s: State, call: Call) {
    match call
    case Scanned(name, _, id) => id in s.issued && s.issued[id] == name
    case Holding(name, _, id, token, _) => id in s.issued && s.issued[id] == name && token.wallet == id
    case Deleting(name, _, id) => id in s.issued && s.issued[id] == name
    case _ => true
  }

  /** The call works with a wallet id. */
  predicate Works(call: Call) { call.Scanned? || call.Holding? || call.Deleting? }

  ghost predicate Orderly(s: State) {
    && (forall id | id in s.issued :: id < s.nextId)
    && (forall id | id in s.wallets :: id in s.issued && s.issued[id] == s.wallets[id].name)
    && (forall name | name in s.cache ::
          s.cache[name].walletId in s.issued && s.issued[s.cache[name].walletId] == name
          && s.cache[name].token.wallet == s.cache[name].walletId)
    && (forall c | c in s.calls :: Belongs(s, s.calls[c]))
  }

  /** Registered names are unique. */
  ghost predicate OneWalletEach(s: State) {
    forall id, id' | id in s.wallets && id' in s.wallets && s.wallets[id].name == s.wallets[id'].name :: id == id'
  }

  lemma {:induction false} FirstNamedIsNamed(listing: seq<Listed>, name: Name)
    ensures var r := FirstNamed(listing, name);
            if r.Some? then Listed(r.value, name) in listing
            else forall i | 0 <= i < |listing| :: listing[i].name != name
  {
    if listing != [] && listing[0].name != name {
      FirstNamedIsNamed(listing[1..], name);
    }
  }

  lemma OneWalletStep(s: State, e: Event)
    requires OneWalletEach(s)
    ensures OneWalletEach(Next(s, e))
  {
  }

  lemma OrderlyIds(s: State, e: Event)
    requires Orderly(s)
    ensures var t := Next(s, e);
            && (forall id | id in s.issued :: id in t.issued && t.issued[id] == s.issued[id])
            && (forall id | id in t.issued :: id < t.nextId)
            && (forall id | id in t.wallets :: id in t.issued && t.issued[id] == t.wallets[id].name)
  {
  }

  /** A step leaves the calls of others alone. */
  lemma OtherCalls(s: State, e: Event, c: CallId)
    requires e.Expire? || e.c != c
    ensures c in Next(s, e).calls <==> c in s.calls
    ensures c in s.calls ==> Next(s, e).calls[c] == s.calls[c]
  {
  }

  lemma OwnCallStep(s: State, e: Event)
    requires Orderly(s) && !e.Expire? && e.c in Next(s, e).calls
    ensures Belongs(Next(s, e), Next(s, e).calls[e.c])
  {
    if e.c in s.calls {
      assert Belongs(s, s.calls[e.c]);
      if e.Scan? && Enabled(s, e) {
        FirstNamedIsNamed(e.listing, s.calls[e.c].name);
      }
    }
  }

  lemma CallStep(s: State, e: Event, c: CallId)
    requires Orderly(s) && c in Next(s, e).calls
    ensures Belongs(Next(s, e), Next(s, e).calls[c])
  {
    if e.Expire? || e.c != c {
      OtherCalls(s, e, c);
      OrderlyIds(s, e);
      assert Belongs(s, s.calls[c]);
    } else {
      OwnCallStep(s, e);
    }
  }

  /** The cache changes only by caching what a call holds, or by expiry. */
  lemma CacheChange(s: State, e: Event, name: Name)
    requires name in Next(s, e).cache
    ensures var entry := Next(s, e).cache[name];
            || (name in s.cache && s.cache[name] == entry)
            || (e.CacheWallet? && e.c in s.calls && s.calls[e.c].Holding?
                && s.calls[e.c] == Holding(name, entry.walletKey, entry.walletId, entry.token, s.calls[e.c].made))
  {
  }

  lemma EntryStep(s: State, e: Event, name: Name)
    requires Orderly(s) && name in Next(s, e).cache
    ensures var t := Next(s, e); var entry := t.cache[name];
            entry.walletId in t.issued && t.issued[entry.walletId] == name && entry.token.wallet == entry.walletId
  {
    OrderlyIds(s, e);
    CacheChange(s, e, name);
    if e.CacheWallet? && e.c in s.calls {
      assert Belongs(s, s.calls[e.c]);
    }
  }

  lemma OrderlyStep(s: State, e: Event)
    requires Orderly(s)
    ensures Orderly(Next(s, e))
  {
    OrderlyIds(s, e);
    var t := Next(s, e);
    forall c | c in t.calls ensures Belongs(t, t.calls[c]) { CallStep(s, e, c); }
    forall name | name in t.cache
      ensures t.cache[name].walletId in t.issued && t.issued[t.cache[name].walletId] == name
      ensures t.cache[name].token.wallet == t.cache[name].walletId
    {
      EntryStep(s, e, name);
    }
  }

  lemma {:induction false} AlwaysOrderly(es: seq<Event>)
    ensures Orderly(After(TENANCY, es)) && OneWalletEach(After(TENANCY, es))
  {
    if es != [] {
      AlwaysOrderly(es[..|es| - 1]);
      OrderlyStep(After(TENANCY, es[..|es| - 1]), es[|es| - 1]);
      OneWalletStep(After(TENANCY, es[..|es| - 1]), es[|es| - 1]);
    }
  }

  /**
   Whatever runs at the same time, every id that is cached, found in the list, about to be cached or
   about to be removed was issued for the name it is used for, and every token opens its wallet.
   */
  lemma IdsBelongToTheirNames(es: seq<Event>, name: Name)
    ensures var s := After(TENANCY, es);
            && (name in s.cache ==>
                  s.cache[name].walletId in s.issued && s.issued[s.cache[name].walletId] == name
                  && s.cache[name].token.wallet == s.cache[name].walletId)
            && forall c | c in s.calls && Works(s.calls[c]) && s.calls[c].name == name ::
                 && s.calls[c].id in s.issued && s.issued[s.calls[c].id] == name
                 && (s.calls[c].Holding? ==> s.calls[c].token.wallet == s.calls[c].id)
  {
    AlwaysOrderly(es);
    var s := After(TENANCY, es);
    forall c | c in s.calls ensures Belongs(s, s.calls[c]) {}
  }

  /** Removing a wallet by name never touches a wallet of another name, nor the cache. */
  lemma RemoveTouchesOnlyItsName(es: seq<Event>, c: CallId, lost: bool, id: WalletId)
    requires var s := After(TENANCY, es);
             Enabled(s, Remove(c, lost)) && id in s.wallets && s.wallets[id].name != s.calls[c].name
    ensures var s, t := After(TENANCY, es), After(TENANCY, es + [Remove(c, lost)]);
            && id in t.wallets && t.wallets[id] == s.wallets[id]
            && t.wallets.Keys == s.wallets.Keys - {s.calls[c].id}
            && t.cache == s.cache
  {
    AlwaysOrderly(es);
    Extend(TENANCY, es, Remove(c, lost));
    assert Belongs(After(TENANCY, es), After(TENANCY, es).calls[c]);
  }
}
