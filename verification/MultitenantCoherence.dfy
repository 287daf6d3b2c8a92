/**
 When the wallet cache agrees with the registry it stands for.
 */
module MultitenantCoherence {
  import opened Runs
  import opened Multitenant

  /** A cached name that is registered is cached with the id of its wallet. */
  ghost predicate Coherent(s: State, name: Name) {
    name in s.cache ==> forall id | id in s.wallets && s.wallets[id].name == name :: id == s.cache[name].walletId
  }

  // ---------------------------------------------------------------- the fast path and the slow path

  /**
   Where the cache is coherent, a hit gives the very wallet that the scan of the list of all wallets
   gives, in whatever order the list comes back, and a token for it.
   */
  lemma HitAgreesWithScan(es: seq<Event>, name: Name, listing: seq<Listed>)
    requires var s := After(TENANCY, es);
             Coherent(s, name) && name in s.cache && NameTaken(s, name) && Lists(s, listing)
    ensures var entry := After(TENANCY, es).cache[name];
            FirstNamed(listing, name) == Some(entry.walletId) && entry.token.wallet == entry.walletId
  {
    AlwaysOrderly(es);
    FirstNamedIsNamed(listing, name);
    var s := After(TENANCY, es);
    var id :| id in s.wallets && s.wallets[id].name == name;
    var i :| 0 <= i < |listing| && listing[i] == Listed(id, name);
    assert FirstNamed(listing, name).Some?;
    var j :| 0 <= j < |listing| && listing[j] == Listed(FirstNamed(listing, name).value, name);
  }

  // ---------------------------------------------------------------- without removals

  predicate Removes(s: State, e: Event, name: Name) {
    e.Remove? && e.c in s.calls && s.calls[e.c].name == name
  }

  /** No wallet of this name is removed in the run. */
  ghost predicate NeverRemoved(es: seq<Event>, name: Name) {
    es != [] ==>
      NeverRemoved(es[..|es| - 1], name) && !Removes(After(TENANCY, es[..|es| - 1]), es[|es| - 1], name)
  }

  ghost predicate AllRegistered(s: State, name: Name) {
    forall id | id in s.issued && s.issued[id] == name :: id in s.wallets
  }

  lemma AllRegisteredStep(s: State, e: Event, name: Name)
    requires Orderly(s) && AllRegistered(s, name) && !Removes(s, e, name)
    ensures AllRegistered(Next(s, e), name)
  {
    if e.Remove? && Enabled(s, e) {
      assert Belongs(s, s.calls[e.c]);
    }
  }

  lemma {:induction false} AlwaysAllRegistered(es: seq<Event>, name: Name)
    requires NeverRemoved(es, name)
    ensures AllRegistered(After(TENANCY, es), name)
  {
    if es != [] {
      AlwaysAllRegistered(es[..|es| - 1], name);
      AlwaysOrderly(es[..|es| - 1]);
      AllRegisteredStep(After(TENANCY, es[..|es| - 1]), es[|es| - 1], name);
    }
  }

  /** Overlapping creates of one name agree: as long as nobody removes it, all of them hold and cache one id. */
  lemma OverlappingCreatesAgree(es: seq<Event>, name: Name)
    requires NeverRemoved(es, name)
    ensures var s := After(TENANCY, es);
            && Coherent(s, name)
            && (forall id, id' | id in s.issued && id' in s.issued && s.issued[id] == s.issued[id'] == name :: id == id')
            && forall c | c in s.calls && s.calls[c].Holding? && s.calls[c].name == name ::
                 s.calls[c].id in s.wallets && s.wallets[s.calls[c].id].name == name
  {
    AlwaysAllRegistered(es, name);
    AlwaysOrderly(es);
    var s := After(TENANCY, es);
    forall c | c in s.calls ensures Belongs(s, s.calls[c]) {}
  }

  // ---------------------------------------------------------------- one call at a time for each name

  ghost predicate Quiet(s: State, name: Name) {
    forall c | c in s.calls :: s.calls[c].name != name
  }

  ghost predicate OneCallEach(s: State) {
    forall c, d | c in s.calls && d in s.calls && s.calls[c].name == s.calls[d].name :: c == d
  }

  ghost predicate Serialised(es: seq<Event>) {
    OneCallEach(After(TENANCY, es)) && (es != [] ==> Serialised(es[..|es| - 1]))
  }

  /**
   Event `e` ends a create that has registered its wallet without caching it, while an older entry of
   that name is still live: the answer of the registration is lost, or the call fails before `cache.set`.
   */
  ghost predicate Abandons(s: State, e: Event) {
    match e
    case Register(c, _, lost) => lost && Enabled(s, e) && !NameTaken(s, s.calls[c].name) && s.calls[c].name in s.cache
    case Fail(c) => c in s.calls && s.calls[c].Holding? && s.calls[c].made && s.calls[c].name in s.cache
    case _ => false
  }

  /** With one call for each name: an entry is older than the wallet its call has registered, and any other held id is the entry's. */
  ghost predicate Origin(s: State, call: Call) {
    match call
    case Scanning(name, _) => name !in s.cache
    case Scanned(name, _, _) => name !in s.cache
    case Holding(name, _, id, _, made) => name in s.cache ==> (made <==> s.cache[name].walletId != id)
    case _ => true
  }

  ghost predicate Origins(s: State) {
    forall c | c in s.calls :: Origin(s, s.calls[c])
  }

  lemma OtherOrigin(s: State, e: Event, c: CallId)
    requires OneCallEach(s) && Enabled(s, e) && c in s.calls && (e.Expire? || e.c != c) && Origin(s, s.calls[c])
    ensures Origin(Next(s, e), s.calls[c])
  {
    var name := s.calls[c].name;
    if name in Next(s, e).cache {
      CacheChange(s, e, name);
    }
  }

  lemma OwnOrigin(s: State, e: Event)
    requires Orderly(s) && Origins(s) && !e.Expire? && Enabled(s, e) && e.c in Next(s, e).calls
    ensures Origin(Next(s, e), Next(s, e).calls[e.c])
  {
    if e.c in s.calls {
      assert Origin(s, s.calls[e.c]);
    }
  }

  lemma OriginsStep(s: State, e: Event)
    requires Orderly(s) && OneCallEach(s) && Origins(s) && Enabled(s, e)
    ensures Origins(Next(s, e))
  {
    var t := Next(s, e);
    forall c | c in t.calls ensures Origin(t, t.calls[c]) {
      if e.Expire? || e.c != c {
        OtherCalls(s, e, c);
        OtherOrigin(s, e, c);
      } else {
        OwnOrigin(s, e);
      }
    }
  }

  lemma {:induction false} AlwaysOrigins(es: seq<Event>)
    requires IsRun(TENANCY, es) && Serialised(es)
    ensures Origins(After(TENANCY, es))
  {
    if es != [] {
      AlwaysOrigins(es[..|es| - 1]);
      AlwaysOrderly(es[..|es| - 1]);
      OriginsStep(After(TENANCY, es[..|es| - 1]), es[|es| - 1]);
    }
  }

  ghost predicate NeverAbandons(es: seq<Event>) {
    es != [] ==> NeverAbandons(es[..|es| - 1]) && !Abandons(After(TENANCY, es[..|es| - 1]), es[|es| - 1])
  }

  ghost predicate HoldsIt(call: Call, name: Name, id: WalletId) {
    call.Holding? && call.name == name && call.id == id
  }

  /** What a create relies on while no other call works on its name. */
  ghost predicate Relies(s: State, call: Call) {
    match call
    case Existing(name, _) => NameTaken(s, name)
    case Scanned(name, _, id) => id in s.wallets && s.wallets[id].name == name
    case Holding(name, _, id, _, _) => id in s.wallets && s.wallets[id].name == name
    case _ => true
  }

  /** A registered wallet is the one its name is cached with, if any, or a call is about to cache it. */
  ghost predicate Settled(s: State, id: WalletId)
    requires id in s.wallets
  {
    var name := s.wallets[id].name;
    name in s.cache ==>
      s.cache[name].walletId == id || exists c | c in s.calls :: HoldsIt(s.calls[c], name, id)
  }

  ghost predicate Settling(s: State) {
    && (forall id | id in s.wallets :: Settled(s, id))
    && (forall c | c in s.calls :: Relies(s, s.calls[c]))
  }

  /** A wallet disappears only through a call of its own name. */
  lemma WalletsStay(s: State, e: Event, id: WalletId, c: CallId)
    requires Orderly(s) && OneCallEach(s) && id in s.wallets
    requires c in s.calls && s.calls[c].name == s.wallets[id].name && (e.Expire? || e.c != c)
    ensures id in Next(s, e).wallets && Next(s, e).wallets[id] == s.wallets[id]
  {
    if e.Remove? && e.c in s.calls {
      assert Belongs(s, s.calls[e.c]);
    }
  }

  lemma OtherRelies(s: State, e: Event, c: CallId)
    requires Orderly(s) && OneCallEach(s) && Settling(s)
    requires c in s.calls && (e.Expire? || e.c != c)
    ensures Relies(Next(s, e), s.calls[c])
  {
    assert Relies(s, s.calls[c]);
    match s.calls[c]
    case Existing(name, _) =>
      var id :| id in s.wallets && s.wallets[id].name == name;
      WalletsStay(s, e, id, c);
    case Scanned(_, _, id) => WalletsStay(s, e, id, c);
    case Holding(_, _, id, _, _) => WalletsStay(s, e, id, c);
    case _ =>
  }

  lemma OwnRelies(s: State, e: Event)
    requires OneCallEach(s) && Settling(s)
    requires !e.Expire? && Enabled(s, e) && e.c in Next(s, e).calls
    ensures Relies(Next(s, e), Next(s, e).calls[e.c])
  {
    if e.c in s.calls {
      assert Relies(s, s.calls[e.c]);
      if e.Lookup? {
        var id :| id in s.wallets && s.wallets[id].name == s.calls[e.c].name;
        assert Settled(s, id);
      } else if e.Scan? {
        FirstNamedIsNamed(e.listing, s.calls[e.c].name);
      }
    }
  }

  lemma NewWalletSettled(s: State, e: Event, id: WalletId)
    requires !Abandons(s, e) && Enabled(s, e) && id !in s.wallets && id in Next(s, e).wallets
    ensures Settled(Next(s, e), id)
  {
    assert e.lost || HoldsIt(Next(s, e).calls[e.c], s.calls[e.c].name, id);
  }

  /** A call that is about to cache the wallet goes on holding it, or has just cached it, or gave up harmlessly. */
  lemma HolderStep(s: State, e: Event, c: CallId, name: Name, id: WalletId)
    requires Enabled(s, e) && !Abandons(s, e) && c in s.calls && HoldsIt(s.calls[c], name, id) && Origin(s, s.calls[c])
    ensures var t := Next(s, e);
            || (c in t.calls && HoldsIt(t.calls[c], name, id))
            || (name in t.cache ==> t.cache[name].walletId == id)
  {
    if e.Expire? || e.c != c {
      OtherCalls(s, e, c);
    }
  }

  lemma SettledStep(s: State, e: Event, id: WalletId)
    requires OneWalletEach(s) && Settling(s) && Origins(s) && !Abandons(s, e)
    requires Enabled(s, e) && id in s.wallets && id in Next(s, e).wallets
    requires Next(s, e).wallets[id] == s.wallets[id]
    ensures Settled(Next(s, e), id)
  {
    var t := Next(s, e);
    var name := s.wallets[id].name;
    if name in t.cache {
      CacheChange(s, e, name);
      assert Settled(s, id);
      if name in s.cache && s.cache[name] == t.cache[name] {
        if s.cache[name].walletId != id {
          var c :| c in s.calls && HoldsIt(s.calls[c], name, id);
          HolderStep(s, e, c, name, id);
        }
      } else {
        assert Relies(s, s.calls[e.c]);
      }
    }
  }

  lemma WalletUnchanged(s: State, e: Event, id: WalletId)
    requires Orderly(s) && id in s.wallets && id in Next(s, e).wallets
    ensures Next(s, e).wallets[id] == s.wallets[id]
  {
  }

  lemma SettlingStep(s: State, e: Event)
    requires Orderly(s) && OneWalletEach(s) && OneCallEach(s) && Settling(s) && Origins(s)
    requires !Abandons(s, e) && Enabled(s, e)
    ensures Settling(Next(s, e))
  {
    var t := Next(s, e);
    forall id | id in t.wallets ensures Settled(t, id) {
      if id in s.wallets {
        WalletUnchanged(s, e, id);
        SettledStep(s, e, id);
      } else {
        NewWalletSettled(s, e, id);
      }
    }
    forall c | c in t.calls ensures Relies(t, t.calls[c]) {
      if e.Expire? || e.c != c {
        OtherCalls(s, e, c);
        OtherRelies(s, e, c);
      } else {
        OwnRelies(s, e);
      }
    }
  }

  lemma {:induction false} AlwaysSettling(es: seq<Event>)
    requires IsRun(TENANCY, es) && Serialised(es) && NeverAbandons(es)
    ensures Settling(After(TENANCY, es))
  {
    if es != [] {
      AlwaysSettling(es[..|es| - 1]);
      AlwaysOrigins(es[..|es| - 1]);
      AlwaysOrderly(es[..|es| - 1]);
      SettlingStep(After(TENANCY, es[..|es| - 1]), es[|es| - 1]);
    }
  }

  lemma SettledWhenQuiet(s: State, name: Name)
    requires Settling(s) && Quiet(s, name)
    ensures Coherent(s, name)
  {
    forall id | id in s.wallets && s.wallets[id].name == name ensures Settled(s, id) {}
  }

  /** An abandoned create leaves a name quiet and its entry wrong. */
  lemma AbandonedIsWrong(s: State, e: Event)
    requires Orderly(s) && OneCallEach(s) && Enabled(s, e) && Abandons(s, e)
    requires e.Fail? ==> Relies(s, s.calls[e.c]) && Origin(s, s.calls[e.c])
    ensures var t := Next(s, e); Quiet(t, s.calls[e.c].name) && !Coherent(t, s.calls[e.c].name)
  {
    var t, name := Next(s, e), s.calls[e.c].name;
    var id := if e.Fail? then s.calls[e.c].id else s.nextId;
    assert id in t.wallets && t.wallets[id].name == name;
  }

  /** In every state of the run, every name no call works on is cached right or not at all. */
  ghost predicate AlwaysCoherent(es: seq<Event>) {
    && (forall name | Quiet(After(TENANCY, es), name) :: Coherent(After(TENANCY, es), name))
    && (es != [] ==> AlwaysCoherent(es[..|es| - 1]))
  }

  /**
   With one call at a time for each name, the cache is right between calls exactly when no create
   was abandoned over a live entry.  That removing a wallet leaves its entry behind does no harm.
   */
  lemma {:induction false} CoherentExactlyWithoutAbandoning(es: seq<Event>)
    requires IsRun(TENANCY, es) && Serialised(es)
    ensures AlwaysCoherent(es) <==> NeverAbandons(es)
  {
    if es != [] {
      var front, e := es[..|es| - 1], es[|es| - 1];
      CoherentExactlyWithoutAbandoning(front);
      if NeverAbandons(front) {
        AlwaysSettling(front);
        AlwaysOrigins(front);
        AlwaysOrderly(front);
        if Abandons(After(TENANCY, front), e) {
          AbandonedIsWrong(After(TENANCY, front), e);
        } else {
          AlwaysSettling(es);
          forall name | Quiet(After(TENANCY, es), name) ensures Coherent(After(TENANCY, es), name) {
            SettledWhenQuiet(After(TENANCY, es), name);
          }
        }
      }
    }
  }

  // ---------------------------------------------------------------- an abandoned create

  /** A wallet is created, cached and removed; it is created again, and the answer is lost. */
  ghost function AgainState(name: Name, key: Key, i: nat): State {
    var made := State(1, map[0 := name], map[0 := Wallet(name, key)], map[], map[]);
    var cached := made.(cache := map[name := Entry(0, key, Token(0, 0))]);
    var gone := cached.(wallets := map[]);
    match i
    case 0 => TENANCY.init
    case 1 => TENANCY.init.(calls := map[0 := Creating(name, key)])
    case 2 => made.(calls := map[0 := Holding(name, key, 0, Token(0, 0), true)])
    case 3 => cached
    case 4 => cached.(calls := map[0 := Removing(name, key)])
    case 5 => cached.(calls := map[0 := Deleting(name, key, 0)])
    case 6 => gone
    case 7 => gone.(calls := map[0 := Creating(name, key)])
    case _ => gone.(nextId := 2, issued := map[0 := name, 1 := name], wallets := map[1 := Wallet(name, key)])
  }

  function AgainEvent(name: Name, key: Key, i: nat): Event {
    match i
    case 0 => BeginCreate(0, name, key)
    case 1 => Register(0, 0, false)
    case 2 => CacheWallet(0)
    case 3 => BeginRemove(0, name, key)
    case 4 => Fetch(0)
    case 5 => Remove(0, false)
    case 6 => BeginCreate(0, name, key)
    case _ => Register(0, 1, true)
  }

  lemma AgainLink(name: Name, key: Key, i: nat)
    requires i < 8
    ensures var s, e := AgainState(name, key, i), AgainEvent(name, key, i);
            Enabled(s, e) && Next(s, e) == AgainState(name, key, i + 1)
  {
    var s := AgainState(name, key, i);
    if i == 2 || i == 5 || i == 7 {
      assert s.calls - {0} == map[];
    }
    if i == 5 {
      assert s.wallets - {0} == map[];
    }
  }

  lemma {:induction false} AgainRun(name: Name, key: Key, i: nat) returns (es: seq<Event>)
    requires i <= 8
    ensures |es| == i && IsRun(TENANCY, es) && Serialised(es) && After(TENANCY, es) == AgainState(name, key, i)
    ensures i == 8 ==> es[7] == Register(0, 1, true) && After(TENANCY, es[..7]) == AgainState(name, key, 7)
  {
    if i == 0 {
      es := [];
    } else {
      var front := AgainRun(name, key, i - 1);
      AgainLink(name, key, i - 1);
      Extend(TENANCY, front, AgainEvent(name, key, i - 1));
      es := front + [AgainEvent(name, key, i - 1)];
      assert es[..i - 1] == front;
    }
  }

  /**
   The failing side is real: for every name there is a run with one call at a time after which the
   wallet that is registered has id 1, nobody works on it, and the cache still gives the removed wallet 0.
   */
  lemma AbandonedCreateLeavesOldId(name: Name, key: Key) returns (es: seq<Event>)
    ensures IsRun(TENANCY, es) && Serialised(es) && !NeverAbandons(es) && !AlwaysCoherent(es)
    ensures var s := After(TENANCY, es);
            && s.calls == map[] && s.wallets == map[1 := Wallet(name, key)]
            && s.cache == map[name := Entry(0, key, Token(0, 0))]
  {
    es := AgainRun(name, key, 8);
    assert Abandons(AgainState(name, key, 7), es[7]);
    CoherentExactlyWithoutAbandoning(es);
  }
}
