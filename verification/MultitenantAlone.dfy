/**
 What creating and removing a wallet do when nothing comes between their requests, after any
 history and with any other calls suspended: the whole state they leave.
 */
module MultitenantAlone {
  import opened Runs
  import opened Multitenant

  // ---------------------------------------------------------------- creating a wallet

  /** The state with a new wallet, cached. */
  function Created(s: State, name: Name, key: Key, serial: nat): State {
    s.(nextId := s.nextId + 1, issued := s.issued[s.nextId := name], wallets := s.wallets[s.nextId := Wallet(name, key)],
       cache := s.cache[name := Entry(s.nextId, key, Token(s.nextId, serial))])
  }

  lemma CreateSteps(s: State, c: CallId, name: Name, key: Key, serial: nat)
    requires c !in s.calls && !NameTaken(s, name)
    ensures var s1 := Next(s, BeginCreate(c, name, key)); var s2 := Next(s1, Register(c, serial, false));
            && Enabled(s, BeginCreate(c, name, key)) && Enabled(s1, Register(c, serial, false)) && Enabled(s2, CacheWallet(c))
            && Next(s2, CacheWallet(c)) == Created(s, name, key, serial)
  {
    var s2 := Next(Next(s, BeginCreate(c, name, key)), Register(c, serial, false));
    assert s2.calls - {c} == s.calls;
  }

  ghost function CreateAlone(es: seq<Event>, c: CallId, name: Name, key: Key, serial: nat): seq<Event> {
    es + [BeginCreate(c, name, key)] + [Register(c, serial, false)] + [CacheWallet(c)]
  }

  /** A name that is free gets one new wallet, cached with its key and token; nothing else changes. */
  lemma CreateAloneRegisters(es: seq<Event>, c: CallId, name: Name, key: Key, serial: nat)
    requires IsRun(TENANCY, es) && c !in After(TENANCY, es).calls && !NameTaken(After(TENANCY, es), name)
    ensures Reaches(TENANCY, es, CreateAlone(es, c, name, key, serial), Created(After(TENANCY, es), name, key, serial))
  {
    CreateSteps(After(TENANCY, es), c, name, key, serial);
    Extend3(TENANCY, es, BeginCreate(c, name, key), Register(c, serial, false), CacheWallet(c));
  }

  /** Up to the lookup, a create of a name that exists already. */
  ghost function LookupAlone(es: seq<Event>, c: CallId, name: Name, key: Key, serial: nat): seq<Event> {
    es + [BeginCreate(c, name, key)] + [Register(c, serial, false)] + [Lookup(c)]
  }

  /** `s` with call `c` at some point. */
  function At(s: State, c: CallId, call: Call): State { s.(calls := s.calls[c := call]) }

  lemma LookupSteps(s: State, c: CallId, name: Name, key: Key, serial: nat, call: Call)
    requires c !in s.calls && NameTaken(s, name) && (name in s.cache ==> s.cache[name].walletKey == key)
    requires call == if name in s.cache then Holding(name, key, s.cache[name].walletId, s.cache[name].token, false)
                     else Scanning(name, key)
    ensures Steps(TENANCY, s, BeginCreate(c, name, key), At(s, c, Creating(name, key)))
    ensures Steps(TENANCY, At(s, c, Creating(name, key)), Register(c, serial, false), At(s, c, Existing(name, key)))
    ensures Steps(TENANCY, At(s, c, Existing(name, key)), Lookup(c), At(s, c, call))
  {
    assert NameTaken(At(s, c, Creating(name, key)), name);
  }

  lemma RunsUntilLookup(es: seq<Event>, c: CallId, name: Name, key: Key, serial: nat, call: Call)
    requires IsRun(TENANCY, es)
    requires var s := After(TENANCY, es);
             && c !in s.calls && NameTaken(s, name) && (name in s.cache ==> s.cache[name].walletKey == key)
             && call == if name in s.cache then Holding(name, key, s.cache[name].walletId, s.cache[name].token, false)
                        else Scanning(name, key)
    ensures Reaches(TENANCY, es, LookupAlone(es, c, name, key, serial), At(After(TENANCY, es), c, call))
  {
    LookupSteps(After(TENANCY, es), c, name, key, serial, call);
    Extend3(TENANCY, es, BeginCreate(c, name, key), Register(c, serial, false), Lookup(c));
  }

  lemma CacheStep(s: State, c: CallId, name: Name, key: Key, id: WalletId, token: Token, t: State)
    requires c !in s.calls && t == s.(cache := s.cache[name := Entry(id, key, token)])
    ensures Steps(TENANCY, At(s, c, Holding(name, key, id, token, false)), CacheWallet(c), t)
  {
    assert s.calls[c := Holding(name, key, id, token, false)] - {c} == s.calls;
  }

  /** Creating a wallet again that exists and is cached under the same key changes nothing at all. */
  lemma CreateOfCachedAlone(es: seq<Event>, c: CallId, name: Name, key: Key, serial: nat)
    requires IsRun(TENANCY, es)
    requires var s := After(TENANCY, es);
             c !in s.calls && NameTaken(s, name) && name in s.cache && s.cache[name].walletKey == key
    ensures Reaches(TENANCY, es, LookupAlone(es, c, name, key, serial) + [CacheWallet(c)], After(TENANCY, es))
  {
    var s := After(TENANCY, es);
    var entry := s.cache[name];
    var held := Holding(name, key, entry.walletId, entry.token, false);
    RunsUntilLookup(es, c, name, key, serial, held);
    assert s.cache[name := Entry(entry.walletId, key, entry.token)] == s.cache;
    CacheStep(s, c, name, key, entry.walletId, entry.token, s);
    Goes(TENANCY, es, LookupAlone(es, c, name, key, serial), At(s, c, held), CacheWallet(c), s);
  }

  /** The list gives the one wallet of this name. */
  lemma ListedIsFound(s: State, name: Name, id: WalletId, listing: seq<Listed>)
    requires OneWalletEach(s) && id in s.wallets && s.wallets[id].name == name && Lists(s, listing)
    ensures FirstNamed(listing, name) == Some(id)
  {
    FirstNamedIsNamed(listing, name);
    var i :| 0 <= i < |listing| && listing[i] == Listed(id, name);
    assert FirstNamed(listing, name).Some?;
    var j :| 0 <= j < |listing| && listing[j] == Listed(FirstNamed(listing, name).value, name);
  }

  lemma ScanStep(s: State, c: CallId, name: Name, key: Key, id: WalletId, listing: seq<Listed>)
    requires FirstNamed(listing, name) == Some(id) && Lists(s, listing)
    ensures Steps(TENANCY, At(s, c, Scanning(name, key)), Scan(c, listing), At(s, c, Scanned(name, key, id)))
  {
    assert Lists(At(s, c, Scanning(name, key)), listing);
  }

  lemma TokenStep(s: State, c: CallId, name: Name, key: Key, serial: nat, id: WalletId)
    requires id in s.wallets
    ensures Steps(TENANCY, At(s, c, Scanned(name, key, id)), FetchToken(c, serial),
                  At(s, c, Holding(name, key, id, Token(id, serial), false)))
  {
  }

  /** One that exists and is not cached is found in the list, in whatever order it comes, and cached with a new token. */
  lemma CreateOfListedAlone(
    es: seq<Event>, c: CallId, name: Name, key: Key, serial: nat, id: WalletId, listing: seq<Listed>)
    returns (all: seq<Event>)
    requires IsRun(TENANCY, es)
    requires var s := After(TENANCY, es);
             && c !in s.calls && name !in s.cache && id in s.wallets && s.wallets[id].name == name && Lists(s, listing)
    ensures all == LookupAlone(es, c, name, key, serial) + [Scan(c, listing)] + [FetchToken(c, serial)] + [CacheWallet(c)]
    ensures var s := After(TENANCY, es);
            Reaches(TENANCY, es, all, s.(cache := s.cache[name := Entry(id, key, Token(id, serial))]))
  {
    var s := After(TENANCY, es);
    AlwaysOrderly(es);
    ListedIsFound(s, name, id, listing);
    assert s.wallets[id].name == name && NameTaken(s, name);
    RunsUntilLookup(es, c, name, key, serial, Scanning(name, key));
    ScanStep(s, c, name, key, id, listing);
    all := LookupAlone(es, c, name, key, serial);
    Goes(TENANCY, es, all, At(s, c, Scanning(name, key)), Scan(c, listing), At(s, c, Scanned(name, key, id)));
    all := all + [Scan(c, listing)];
    all := Finishes(es, all, s, c, name, key, serial, id);
  }

  lemma Finishes(es: seq<Event>, mid: seq<Event>, s: State, c: CallId, name: Name, key: Key, serial: nat, id: WalletId)
    returns (all: seq<Event>)
    requires Reaches(TENANCY, es, mid, At(s, c, Scanned(name, key, id))) && c !in s.calls && id in s.wallets
    ensures all == mid + [FetchToken(c, serial)] + [CacheWallet(c)]
    ensures Reaches(TENANCY, es, all, s.(cache := s.cache[name := Entry(id, key, Token(id, serial))]))
  {
    var held := Holding(name, key, id, Token(id, serial), false);
    TokenStep(s, c, name, key, serial, id);
    Goes(TENANCY, es, mid, At(s, c, Scanned(name, key, id)), FetchToken(c, serial), At(s, c, held));
    CacheStep(s, c, name, key, id, Token(id, serial), s.(cache := s.cache[name := Entry(id, key, Token(id, serial))]));
    Goes(TENANCY, es, mid + [FetchToken(c, serial)], At(s, c, held), CacheWallet(c),
         s.(cache := s.cache[name := Entry(id, key, Token(id, serial))]));
    all := mid + [FetchToken(c, serial)] + [CacheWallet(c)];
  }

  // ---------------------------------------------------------------- removing a wallet

  lemma RemoveSteps(s: State, c: CallId, name: Name, key: Key)
    requires c !in s.calls && name in s.cache && s.cache[name].walletId in s.wallets
    ensures var s1 := Next(s, BeginRemove(c, name, key)); var s2 := Next(s1, Fetch(c));
            && Enabled(s, BeginRemove(c, name, key)) && Enabled(s1, Fetch(c)) && Enabled(s2, Remove(c, false))
            && Next(s2, Remove(c, false)) == s.(wallets := s.wallets - {s.cache[name].walletId})
  {
    var s2 := Next(Next(s, BeginRemove(c, name, key)), Fetch(c));
    assert s2.calls - {c} == s.calls;
  }

  ghost function RemoveAlone(es: seq<Event>, c: CallId, name: Name, key: Key): seq<Event> {
    es + [BeginRemove(c, name, key)] + [Fetch(c)] + [Remove(c, false)]
  }

  /** A cached, registered wallet is removed from aca-py, and its cache entry stays. */
  lemma RemoveAloneUnregisters(es: seq<Event>, c: CallId, name: Name, key: Key)
    requires IsRun(TENANCY, es)
    requires var s := After(TENANCY, es); c !in s.calls && name in s.cache && s.cache[name].walletId in s.wallets
    ensures var s := After(TENANCY, es);
            Reaches(TENANCY, es, RemoveAlone(es, c, name, key), s.(wallets := s.wallets - {s.cache[name].walletId}))
  {
    RemoveSteps(After(TENANCY, es), c, name, key);
    Extend3(TENANCY, es, BeginRemove(c, name, key), Fetch(c), Remove(c, false));
  }

  /** So a removal undoes a create at aca-py, and leaves only the cache entry behind. */
  lemma RemoveUndoesCreate(es: seq<Event>, c: CallId, name: Name, key: Key, serial: nat)
    requires IsRun(TENANCY, es) && c !in After(TENANCY, es).calls && !NameTaken(After(TENANCY, es), name)
    ensures var all := RemoveAlone(CreateAlone(es, c, name, key, serial), c, name, key);
            && IsRun(TENANCY, all)
            && After(TENANCY, all).wallets == After(TENANCY, es).wallets
            && After(TENANCY, all).cache
               == After(TENANCY, es).cache[name := Entry(After(TENANCY, es).nextId, key, Token(After(TENANCY, es).nextId, serial))]
  {
    var s := After(TENANCY, es);
    AlwaysOrderly(es);
    CreateAloneRegisters(es, c, name, key, serial);
    RemoveAloneUnregisters(CreateAlone(es, c, name, key, serial), c, name, key);
    NewIdIsNew(s);
    assert s.wallets[s.nextId := Wallet(name, key)] - {s.nextId} == s.wallets;
  }

  lemma NewIdIsNew(s: State)
    requires Orderly(s)
    ensures s.nextId !in s.wallets
  {
  }
}
