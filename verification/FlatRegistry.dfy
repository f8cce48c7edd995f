/**
 * The registry is a map of maps, but all that the broker ever does with it
 * depends on the one flat map from (name, identification) to service: inner
 * maps left empty by removals cannot be observed.
 */
module FlatRegistry {
  import opened Objects
  import opened Glob
  import opened BrokerState
  import opened Effects
  import opened Listings
  import Memory

  ghost predicate SameFlat(r1: Registry, r2: Registry) {
    forall name, ident :: Lookup(r1, name, ident) == Lookup(r2, name, ident)
  }

  ghost predicate NameTaken(services: Registry, name: string) {
    exists ident :: Lookup(services, name, ident).Some?
  }

  /** Two states that differ at most in inner maps left empty. */
  ghost predicate Alike(st1: State, st2: State) {
    st2 == st1.(services := st2.services) && SameFlat(st1.services, st2.services)
  }

  /** `NoSuchService` is the answer exactly when no service of that name is registered. */
  lemma RefusalIsFlat(services: Registry, name: string)
    ensures Refusal(services, name) == NoSuchService <==> !NameTaken(services, name)
  {
    if name in services && services[name] != map[] {
      var ident :| ident in services[name];
      assert Lookup(services, name, ident).Some?;
    }
  }

  /**
   * A request is refused exactly when its key is not registered: the requester,
   * and nobody else, is written one error reply of the kind that the flat map
   * decides, and the request is not tracked. Any other request is tracked.
   */
  lemma RefusedExactly(st: State, c: Client, m: Message)
    requires m.Request? && Memory.ServicesKnown(st.services, st.book) && c in st.net.conn
    ensures var st' := Requesting(st, c, m);
            var kind := if NameTaken(st.services, m.name) then InvalidIdentification else NoSuchService;
            match Lookup(st.services, m.name, m.ident)
            case None =>
              && st'.table == st.table
              && (forall d :: d in st.net.conn ==>
                    Written(st', d) == Written(st, d) + if d == c && c !in st.net.closed then [Reply(m.id, Error(kind))] else [])
            case Some(s) => m.id in st'.table.pending && st'.table.pending[m.id].sender == c && st'.table.next == st.table.next + 1
  {
    RefusalIsFlat(st.services, m.name);
  }

  lemma ListingIsFlat(r1: Registry, r2: Registry)
    requires SameFlat(r1, r2)
    ensures ListServices(r1) == ListServices(r2)
  {
    forall k: (string, string)
      ensures k in ListServices(r1) <==> k in ListServices(r2)
      ensures k in ListServices(r1) ==> ListServices(r1)[k] == ListServices(r2)[k]
    {
      ListServicesAt(r1, k.0, k.1);
      ListServicesAt(r2, k.0, k.1);
    }
  }

  lemma RequestIsFlat(st1: State, st2: State, c: Client, m: Message)
    requires Alike(st1, st2) && m.Request?
    ensures RequestNet(st1, c, m) == RequestNet(st2, c, m) && RequestTable(st1, c, m) == RequestTable(st2, c, m)
  {
    RefusalIsFlat(st1.services, m.name);
    RefusalIsFlat(st2.services, m.name);
    assert NameTaken(st1.services, m.name) <==> NameTaken(st2.services, m.name);
    assert Target(st1, m) == Target(st2, m);
  }

  lemma StoreIsFlat(r1: Registry, r2: Registry, s: Service)
    requires SameFlat(r1, r2)
    ensures SameFlat(Store(r1, s), Store(r2, s))
  {
    forall name, ident
      ensures Lookup(Store(r1, s), name, ident) == Lookup(Store(r2, s), name, ident)
    {
      assert Lookup(r1, name, ident) == Lookup(r2, name, ident);
    }
  }

  lemma UnregisterIsFlat(r1: Registry, r2: Registry, list: seq<Service>)
    requires SameFlat(r1, r2)
    ensures SameFlat(UnregisterAll(r1, list), UnregisterAll(r2, list))
  {
    forall name, ident
      ensures Lookup(UnregisterAll(r1, list), name, ident) == Lookup(UnregisterAll(r2, list), name, ident)
    {
      UnregisterAllLookup(r1, list, name, ident);
      UnregisterAllLookup(r2, list, name, ident);
    }
  }

  lemma RegisteringIsFlat(st1: State, st2: State, s: Service, none: array<Client>)
    requires Alike(st1, st2)
    ensures Alike(Registering(st1, s, none), Registering(st2, s, none))
  {
    assert Lookup(st1.services, s.name, s.ident) == Lookup(st2.services, s.name, s.ident);
    StoreIsFlat(st1.services, st2.services, s);
    SameButServices(st1, st2, s, none);
  }

  lemma SameButServices(st1: State, st2: State, s: Service, none: array<Client>)
    requires st2 == st1.(services := st2.services)
    requires Lookup(st1.services, s.name, s.ident) == Lookup(st2.services, s.name, s.ident)
    ensures Registering(st2, s, none) == Registering(st1, s, none).(services := Store(st2.services, s))
  {
    assert Detached(st1, s) == Detached(st2, s);
    assert Announce(st1, s) == Announce(st2, s);
  }

  lemma DepartIsFlat(st1: State, st2: State, c: Client, exactKeys: seq<string>, globKeys: seq<string>)
    requires Alike(st1, st2)
    ensures Alike(Depart(st1, c, exactKeys, globKeys), Depart(st2, c, exactKeys, globKeys))
  {
    assert Farewell(st1, c, exactKeys, globKeys) == Farewell(st2, c, exactKeys, globKeys);
    UnregisterIsFlat(st1.services, st2.services, Owned(st1, c));
  }

  lemma RequestingIsFlat(st1: State, st2: State, c: Client, m: Message)
    requires Alike(st1, st2) && m.Request?
    ensures Alike(Requesting(st1, c, m), Requesting(st2, c, m))
  {
    RequestIsFlat(st1, st2, c, m);
  }

  lemma EnabledIsFlat(st1: State, st2: State, step: Step)
    requires Alike(st1, st2)
    ensures Enabled(st1, step) <==> Enabled(st2, step)
  {
    if step.SpiesOn? {
      assert Lookup(st1.services, step.s.name, step.s.ident) == Lookup(st2.services, step.s.name, step.s.ident);
    }
  }

  lemma SubscribingIgnores(st1: State, st2: State, c: Client, p: string)
    requires st2 == st1.(services := st2.services)
    ensures Subscribing(st2, c, p) == Subscribing(st1, c, p).(services := st2.services)
  {
    assert Patterns(st1, c) == Patterns(st2, c);
    if p !in Patterns(st1, c) {
      var exact := if HasStar(p) then st1.exact else AddTo(st1.exact, p, c);
      var glob := if HasStar(p) then AddTo(st1.glob, p, c) else st1.glob;
      assert Subscribing(st1, c, p).exact == exact && Subscribing(st1, c, p).glob == glob;
      assert Subscribing(st2, c, p).exact == exact && Subscribing(st2, c, p).glob == glob;
    }
  }

  lemma SubscribingIsFlat(st1: State, st2: State, c: Client, p: string)
    requires Alike(st1, st2)
    ensures Alike(Subscribing(st1, c, p), Subscribing(st2, c, p))
  {
    SubscribingIgnores(st1, st2, c, p);
    assert Subscribing(st1, c, p).services == st1.services;
  }

  lemma ReplyingIsFlat(st1: State, st2: State, id: RequestId, answer: Answer)
    requires Alike(st1, st2)
    ensures Alike(Replying(st1, id, answer), Replying(st2, id, answer))
  {
    assert ReplyNet(st1, id, answer) == ReplyNet(st2, id, answer);
  }

  /** The same steps can be taken, and they lead to states that are again alike. */
  lemma StepIsFlat(st1: State, st2: State, step: Step)
    requires Alike(st1, st2) && Enabled(st1, step) && Enabled(st2, step)
    ensures Alike(Apply(st1, step), Apply(st2, step))
  {
    match step
    case Registers(s, none) => RegisteringIsFlat(st1, st2, s, none);
    case Requests(c, m) => RequestingIsFlat(st1, st2, c, m);
    case Departs(c, exactKeys, globKeys) => DepartIsFlat(st1, st2, c, exactKeys, globKeys);
    case Subscribes(c, p) => SubscribingIsFlat(st1, st2, c, p);
    case Replies(_, id, answer) => ReplyingIsFlat(st1, st2, id, answer);
    case _ =>
  }

  /** Over whole runs: the same runs are possible, with the same messages written and the same listings. */
  lemma {:induction false} RunIsFlat(st1: State, st2: State, steps: seq<Step>)
    requires Alike(st1, st2) && Legal(st1, steps)
    ensures Legal(st2, steps)
    ensures Alike(Exec(st1, steps), Exec(st2, steps))
    ensures List(Exec(st1, steps)) == List(Exec(st2, steps))
    decreases |steps|
  {
    if steps == [] {
      ListingIsFlat(st1.services, st2.services);
    } else {
      EnabledIsFlat(st1, st2, steps[0]);
      StepIsFlat(st1, st2, steps[0]);
      RunIsFlat(Apply(st1, steps[0]), Apply(st2, steps[0]), steps[1..]);
    }
  }
}
