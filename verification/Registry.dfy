/** The service registry: takeover, departure, and its view as one flat map. */
module Registry {
  import opened Seqs
  import opened Objects
  import opened Options
  import opened BrokerState
  import opened Effects

  /** Everything this client has listed is registered under its key, once, and is its own. */
  ghost predicate ListsItsOwn(st: State, c: Client) {
    && NoDup(Owned(st, c))
    && forall s :: s in Owned(st, c) ==> s.client == c && Registered(st, s) && s in st.book.spies
  }

  /** A service is registered under its own key. */
  ghost predicate EntryKeyed(services: Registry, name: string, ident: string) {
    match Lookup(services, name, ident)
    case None => true
    case Some(s) => Keyed(s) == (name, ident)
  }

  ghost predicate WellKeyed(services: Registry) {
    forall name, ident :: EntryKeyed(services, name, ident)
  }

  lemma StoreKeyed(services: Registry, s: Service)
    requires WellKeyed(services)
    ensures WellKeyed(Store(services, s))
  {
    forall name, ident
      ensures EntryKeyed(Store(services, s), name, ident)
    {
      assert EntryKeyed(services, name, ident);
    }
  }

  lemma UnregisterKeyed(services: Registry, list: seq<Service>)
    requires WellKeyed(services)
    ensures WellKeyed(UnregisterAll(services, list))
  {
    forall name, ident
      ensures EntryKeyed(UnregisterAll(services, list), name, ident)
    {
      UnregisterAllLookup(services, list, name, ident);
      assert EntryKeyed(services, name, ident);
    }
  }

  ghost predicate EntryOk(st: State, name: string, ident: string) {
    match Lookup(st.services, name, ident)
    case None => true
    case Some(s) => Keyed(s) == (name, ident) && Connected(st, s.client) && s in Owned(st, s.client)
  }

  /**
   * The lists of the connected clients and the registry mirror each other: a
   * service is listed by a connected client if and only if it is registered and
   * that client is its owner.
   */
  ghost predicate Inv(st: State) {
    && (forall id :: id in st.clients ==> st.clients[id].id == id && st.clients[id] in st.names)
    && (forall name, ident :: EntryOk(st, name, ident))
    && (forall id :: id in st.clients ==> ListsItsOwn(st, st.clients[id]))
  }

  /** The mirror, as an equivalence. */
  lemma OwnedIffRegistered(st: State, c: Client, s: Service)
    requires Inv(st) && Connected(st, c)
    ensures s in Owned(st, c) <==> Registered(st, s) && s.client == c
  {
    assert EntryOk(st, s.name, s.ident);
  }

  /** A client's list after a registration. */
  lemma OwnedAfter(st: State, s: Service, none: array<Client>, c: Client)
    ensures var d := Lookup(st.services, s.name, s.ident);
            var left := if d.Some? && d.value.client == c then WithoutKey(Owned(st, c), s.name, s.ident) else Owned(st, c);
            Owned(Registering(st, s, none), c) == left + if c == s.client then [s] else []
  {
  }

  /** A connected client loses the service under the key, and gains the new one if it is its own. */
  lemma ConnectedListAfter(st: State, s: Service, none: array<Client>, c: Client)
    requires EntryOk(st, s.name, s.ident) && ListsItsOwn(st, c) && s !in st.book.spies
    ensures var st' := Registering(st, s, none);
            && NoDup(Owned(st', c))
            && forall d :: d in Owned(st', c) <==>
                 (d == s && c == s.client) || (d in Owned(st, c) && Keyed(d) != Keyed(s))
  {
    OwnedAfter(st, s, none, c);
    WithoutKeyExact(st, c, s.name, s.ident);
    assert forall d :: d in Owned(st, c) && Keyed(d) == Keyed(s) ==> Lookup(st.services, s.name, s.ident) == Some(d);
  }

  /**
   * Takeover: the replaced service leaves its owner's list, whoever registers,
   * and of the connected clients only the one that registers gains a service. A
   * client that has left keeps what it listed, and the new service besides.
   */
  lemma ReplaceDetaches(st: State, s: Service, none: array<Client>, c: Client)
    requires Inv(st) && s !in st.book.spies
    ensures var st' := Registering(st, s, none);
            && (Connected(st, c) ==>
                  && NoDup(Owned(st', c))
                  && forall d :: d in Owned(st', c) <==>
                       (d == s && c == s.client) || (d in Owned(st, c) && Keyed(d) != Keyed(s)))
            && (!Connected(st, c) ==> Owned(st', c) == Owned(st, c) + if c == s.client then [s] else [])
  {
    assert EntryOk(st, s.name, s.ident);
    if Connected(st, c) {
      assert ListsItsOwn(st, st.clients[c.id]);
      ConnectedListAfter(st, s, none, c);
    } else {
      OwnedAfter(st, s, none, c);
    }
  }

  lemma WithoutKeyExact(st: State, c: Client, name: string, ident: string)
    requires ListsItsOwn(st, c)
    ensures var list := WithoutKey(Owned(st, c), name, ident);
            && NoDup(list)
            && forall d :: d in list <==> d in Owned(st, c) && Keyed(d) != (name, ident)
  {
    var list := Owned(st, c);
    var i := KeyIndex(list, name, ident);
    if i < |list| {
      SwapRemoveUnique(list, i);
      assert forall d :: d in list && Keyed(d) == (name, ident) ==> Registered(st, d) && Registered(st, list[i]);
    }
  }

  lemma RegisterLookup(st: State, s: Service, none: array<Client>, name: string, ident: string)
    ensures Lookup(Registering(st, s, none).services, name, ident) ==
            if Keyed(s) == (name, ident) then Some(s) else Lookup(st.services, name, ident)
  {
  }

  lemma EntryAfter(st: State, s: Service, none: array<Client>, name: string, ident: string)
    requires Inv(st) && Connected(st, s.client) && s !in st.book.spies
    ensures EntryOk(Registering(st, s, none), name, ident)
  {
    RegisterLookup(st, s, none, name, ident);
    assert EntryOk(st, name, ident);
    match Lookup(Registering(st, s, none).services, name, ident)
    case None =>
    case Some(d) => ReplaceDetaches(st, s, none, d.client);
  }

  lemma ListAfter(st: State, s: Service, none: array<Client>, c: Client)
    requires Inv(st) && Connected(st, c) && s !in st.book.spies
    ensures ListsItsOwn(Registering(st, s, none), c)
  {
    var st' := Registering(st, s, none);
    ReplaceDetaches(st, s, none, c);
    assert ListsItsOwn(st, st.clients[c.id]);
    forall d | d in Owned(st', c)
      ensures d.client == c && Registered(st', d) && d in st'.book.spies
    {
      RegisterLookup(st, s, none, d.name, d.ident);
      assert d == s || d in Owned(st, c);
    }
  }

  /** The mirror survives a registration exactly when the client registering is connected. */
  lemma RegisterKeepsIffConnected(st: State, s: Service, none: array<Client>)
    requires Inv(st) && s.client in st.names && s !in st.book.spies && none !in st.book.store
    ensures Inv(Registering(st, s, none)) <==> Connected(st, s.client)
  {
    var st' := Registering(st, s, none);
    if Connected(st, s.client) {
      forall name, ident
        ensures EntryOk(st', name, ident)
      {
        EntryAfter(st, s, none, name, ident);
      }
      forall id | id in st'.clients
        ensures ListsItsOwn(st', st'.clients[id])
      {
        ListAfter(st, s, none, st.clients[id]);
      }
    } else {
      RegisterLookup(st, s, none, s.name, s.ident);
      assert !EntryOk(st', s.name, s.ident);
    }
  }

  /**
   * A departure takes out of the registry the services its client owns, and no
   * other: in particular none that another client has taken over.
   */
  lemma DepartureTakesItsOwn(st: State, c: Client, exactKeys: seq<string>, globKeys: seq<string>,
          name: string, ident: string)
    requires Inv(st) && Connected(st, c)
    ensures Lookup(Depart(st, c, exactKeys, globKeys).services, name, ident) ==
            match Lookup(st.services, name, ident)
            case None => None
            case Some(s) => if s.client == c then None else Some(s)
  {
    var list := Owned(st, c);
    UnregisterAllLookup(st.services, list, name, ident);
    assert EntryOk(st, name, ident) && ListsItsOwn(st, st.clients[c.id]);
    if HasKey(list, name, ident) {
      var s :| s in list && Keyed(s) == (name, ident);
      assert Registered(st, s);
    }
  }

  /** A client that stays keeps its list, and all of it stays registered. */
  lemma OthersKeepTheirOwn(st: State, c: Client, exactKeys: seq<string>, globKeys: seq<string>, d: Client)
    requires Inv(st) && Connected(st, c) && Connected(st, d) && d != c
    requires forall s :: s in st.book.spies ==> s in RemoveSpies(st.book, Spying(st, c), c).spies
    ensures ListsItsOwn(Depart(st, c, exactKeys, globKeys), d)
  {
    assert ListsItsOwn(st, st.clients[d.id]);
    forall s | s in Owned(st, d)
      ensures Registered(Depart(st, c, exactKeys, globKeys), s)
    {
      DepartureTakesItsOwn(st, c, exactKeys, globKeys, s.name, s.ident);
    }
  }

  lemma EntriesStay(st: State, c: Client, exactKeys: seq<string>, globKeys: seq<string>, name: string, ident: string)
    requires Inv(st) && Connected(st, c)
    ensures EntryOk(Depart(st, c, exactKeys, globKeys), name, ident)
  {
    DepartureTakesItsOwn(st, c, exactKeys, globKeys, name, ident);
    assert EntryOk(st, name, ident);
  }

  lemma DepartKeeps(st: State, c: Client, exactKeys: seq<string>, globKeys: seq<string>)
    requires Inv(st) && Connected(st, c)
    requires forall s :: s in st.book.spies ==> s in RemoveSpies(st.book, Spying(st, c), c).spies
    ensures Inv(Depart(st, c, exactKeys, globKeys))
  {
    var st' := Depart(st, c, exactKeys, globKeys);
    forall name, ident
      ensures EntryOk(st', name, ident)
    {
      EntriesStay(st, c, exactKeys, globKeys, name, ident);
    }
    forall id | id in st'.clients
      ensures ListsItsOwn(st', st'.clients[id])
    {
      OthersKeepTheirOwn(st, c, exactKeys, globKeys, st.clients[id]);
    }
  }
}
