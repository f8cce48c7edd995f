/**
 * The broker's invariant, which every step of every run keeps; and the mirror of
 * registry and lists, which every run keeps that registers only for clients
 * still connected.
 */
module Runs {
  import opened Seqs
  import opened Objects
  import opened Glob
  import opened Options
  import opened BrokerState
  import R = Requests
  import Registry
  import Subscriptions
  import Spies
  import Memory

  ghost predicate Inv(st: State) {
    && Memory.Closed(st)
    && Registry.WellKeyed(st.services)
    && Subscriptions.Inv(st)
    && Spies.Inv(st)
    && R.Inv(st.table)
  }

  lemma InitTable()
    ensures R.Inv(R.EMPTY_TABLE)
  {
    assert R.Gone(R.EMPTY_TABLE) == [];
  }

  lemma InitMemory()
    ensures Memory.Closed(INIT) && Spies.Inv(INIT)
  {
  }

  lemma InitInv()
    ensures Inv(INIT) && Registry.Inv(INIT)
  {
    InitTable();
    InitMemory();
  }

  // What each part of the invariant depends on.

  lemma RegistryFrame(st: State, st': State)
    requires Registry.Inv(st)
    requires st'.clients == st.clients && st'.services == st.services && st'.owned == st.owned
    requires st.names.Keys <= st'.names.Keys && st.book.spies.Keys <= st'.book.spies.Keys
    ensures Registry.Inv(st')
  {
    forall name, ident
      ensures Registry.EntryOk(st', name, ident)
    {
      assert Registry.EntryOk(st, name, ident);
    }
    forall id | id in st.clients
      ensures Registry.ListsItsOwn(st', st.clients[id])
    {
      assert Registry.ListsItsOwn(st, st.clients[id]);
    }
  }

  lemma SubscriptionsFrame(st: State, st': State)
    requires Subscriptions.Inv(st)
    requires st'.clients == st.clients && st'.exact == st.exact && st'.glob == st.glob && st'.subscribes == st.subscribes
    requires st.names.Keys <= st'.names.Keys
    ensures Subscriptions.Inv(st')
  {
    forall k
      ensures Subscriptions.KeyOk(st', st'.exact, k) && Subscriptions.KeyOk(st', st'.glob, k)
    {
      assert Subscriptions.KeyOk(st, st.exact, k) && Subscriptions.KeyOk(st, st.glob, k);
    }
    forall id | id in st.clients
      ensures Subscriptions.ClientOk(st', st.clients[id])
    {
      assert Subscriptions.ClientOk(st, st.clients[id]);
    }
  }

  lemma ConnectKeepsEntry(st: State, c: Client, name: string, ident: string)
    requires Registry.EntryOk(st, name, ident) && c !in st.names && c.id !in st.clients
    requires forall id :: id in st.clients ==> st.clients[id] in st.names
    ensures Registry.EntryOk(Connect(st, c), name, ident)
  {
  }

  lemma ConnectKeepsLists(st: State, c: Client, d: Client)
    requires d == c || Registry.ListsItsOwn(st, d)
    ensures Registry.ListsItsOwn(Connect(st, c), d)
  {
  }

  lemma ConnectKeepsRegistry(st: State, c: Client)
    requires Registry.Inv(st) && c !in st.names && c.id !in st.clients
    ensures Registry.Inv(Connect(st, c))
  {
    var st' := Connect(st, c);
    forall name, ident
      ensures Registry.EntryOk(st', name, ident)
    {
      assert Registry.EntryOk(st, name, ident);
      ConnectKeepsEntry(st, c, name, ident);
    }
    forall id | id in st'.clients
      ensures Registry.ListsItsOwn(st', st'.clients[id])
    {
      assert id in st.clients ==> Registry.ListsItsOwn(st, st.clients[id]);
      ConnectKeepsLists(st, c, st'.clients[id]);
    }
  }

  lemma ConnectKeepsKey(st: State, c: Client, m: Subscribers, k: string)
    requires Subscriptions.KeyOk(st, m, k) && c.id !in st.clients
    ensures Subscriptions.KeyOk(Connect(st, c), m, k)
  {
    if k in m {
      forall d | d in m[k]
        ensures Connected(Connect(st, c), d) && k in Patterns(Connect(st, c), d)
      {
        assert Connected(st, d) && d != c;
      }
    }
  }

  lemma ConnectKeepsSubscriptions(st: State, c: Client)
    requires Subscriptions.Inv(st) && c !in st.names && c.id !in st.clients
    ensures Subscriptions.Inv(Connect(st, c))
  {
    var st' := Connect(st, c);
    forall k
      ensures Subscriptions.KeyOk(st', st.exact, k) && Subscriptions.KeyOk(st', st.glob, k)
    {
      ConnectKeepsKey(st, c, st.exact, k);
      ConnectKeepsKey(st, c, st.glob, k);
    }
    forall id | id in st'.clients
      ensures Subscriptions.ClientOk(st', st'.clients[id])
    {
      if id in st.clients {
        assert Subscriptions.ClientOk(st, st.clients[id]);
      }
    }
  }

  lemma RequestStepKeepsMemory(st: State, step: Step)
    requires Memory.Closed(st) && Enabled(st, step) && (step.Requests? || step.Replies? || step.Fires?)
    ensures Memory.Closed(Apply(st, step))
  {
    match step
    case Requests(c, m) => Memory.RequestCloses(st, c, m);
    case Replies(_, id, answer) => Memory.ReplyCloses(st, id, answer);
    case Fires(k) => Memory.FireCloses(st, k);
  }

  lemma ClientStepKeepsMemory(st: State, step: Step)
    requires Memory.Closed(st) && Enabled(st, step) && (step.Connects? || step.Renames? || step.Departs?)
    ensures Memory.Closed(Apply(st, step))
  {
    match step
    case Connects(c) => Memory.ConnectCloses(st, c);
    case Renames(c, name) => Memory.RenameCloses(st, c, name);
    case Departs(c, exactKeys, globKeys) => Memory.DepartCloses(st, c, exactKeys, globKeys);
  }

  lemma ListStepKeepsMemory(st: State, step: Step)
    requires Memory.Closed(st) && Enabled(st, step) && (step.Registers? || step.Subscribes? || step.Publishes? || step.SpiesOn?)
    ensures Memory.Closed(Apply(st, step))
  {
    match step
    case Registers(s, none) => Memory.RegisterCloses(st, s, none);
    case Subscribes(c, p) => Memory.SubscribeCloses(st, c, p);
    case Publishes(_, topic, payload) => Memory.PublishCloses(st, topic, payload);
    case SpiesOn(c, s, room, spare) =>
      assert s == st.services[s.name][s.ident];
      Memory.SpyCloses(st, c, s, room, spare);
  }

  lemma StepKeepsMemory(st: State, step: Step)
    requires Memory.Closed(st) && Enabled(st, step)
    ensures Memory.Closed(Apply(st, step))
  {
    if step.Requests? || step.Replies? || step.Fires? {
      RequestStepKeepsMemory(st, step);
    } else if step.Connects? || step.Renames? || step.Departs? {
      ClientStepKeepsMemory(st, step);
    } else {
      ListStepKeepsMemory(st, step);
    }
  }

  lemma {:induction false} RunKeepsMemory(st: State, steps: seq<Step>)
    requires Memory.Closed(st) && Legal(st, steps)
    ensures Memory.Closed(Exec(st, steps))
    decreases |steps|
  {
    if steps != [] {
      StepKeepsMemory(st, steps[0]);
      RunKeepsMemory(Apply(st, steps[0]), steps[1..]);
    }
  }

  /** Steps that change neither clients, nor lists, nor indexes, nor spies. */
  ghost predicate Quiet(st: State, st': State) {
    && st' == st.(names := st'.names, table := st'.table, net := st'.net)
    && st'.names.Keys == st.names.Keys
  }

  lemma QuietSteps(st: State, step: Step)
    requires Enabled(st, step)
    requires step.Renames? || step.Publishes? || step.Requests? || step.Replies? || step.Fires?
    ensures Quiet(st, Apply(st, step))
  {
    match step
    case Renames(c, name) => assert st.names[c := name].Keys == st.names.Keys;
    case _ =>
  }

  lemma StepKeepsRegistry(st: State, step: Step)
    requires Registry.Inv(st) && Enabled(st, step)
    requires forall s :: s in st.book.spies ==> s in Apply(st, step).book.spies
    ensures Registry.Inv(Apply(st, step)) <==> (step.Registers? ==> Connected(st, step.s.client))
  {
    match step
    case Connects(c) => ConnectKeepsRegistry(st, c);
    case Registers(s, none) => Registry.RegisterKeepsIffConnected(st, s, none);
    case Subscribes(c, p) => RegistryFrame(st, Subscribing(st, c, p));
    case SpiesOn(c, s, room, spare) => RegistryFrame(st, Spy(st, c, s, room, spare));
    case Departs(c, exactKeys, globKeys) => Registry.DepartKeeps(st, c, exactKeys, globKeys);
    case _ =>
      QuietSteps(st, step);
      RegistryFrame(st, Apply(st, step));
  }

  lemma StepKeepsSubscriptions(st: State, step: Step)
    requires Subscriptions.Inv(st) && Enabled(st, step)
    ensures Subscriptions.Inv(Apply(st, step))
  {
    match step
    case Connects(c) => ConnectKeepsSubscriptions(st, c);
    case Registers(s, none) => SubscriptionsFrame(st, Registering(st, s, none));
    case Subscribes(c, p) => Subscriptions.SubscribeKeeps(st, c, p);
    case SpiesOn(c, s, room, spare) => SubscriptionsFrame(st, Spy(st, c, s, room, spare));
    case Departs(c, exactKeys, globKeys) => Subscriptions.DepartKeeps(st, c, exactKeys, globKeys);
    case _ =>
      QuietSteps(st, step);
      SubscriptionsFrame(st, Apply(st, step));
  }

  lemma SpyKeepsSpies(st: State, c: Client, s: Service, room: array<Client>, spare: nat)
    requires Spies.Inv(st) && Connected(st, c) && s in st.book.spies && room !in st.book.store
    ensures Spies.Inv(Spy(st, c, s, room, spare))
  {
    Spies.AddSpyKeeps(st.clients, st.names.Keys, st.spying, st.book, c, s, room, spare);
  }

  lemma ConnectKeepsSpies(st: State, c: Client)
    requires Spies.Inv(st) && c !in st.names && c.id !in st.clients
    ensures Spies.Inv(Connect(st, c))
  {
    Spies.ConnectKeeps(st.clients, st.names.Keys, st.spying, st.book, c);
    assert st.names[c := ""].Keys == st.names.Keys + {c};
  }

  lemma StepKeepsSpies(st: State, step: Step)
    requires Spies.Inv(st) && Memory.ServicesKnown(st.services, st.book) && Enabled(st, step)
    ensures Spies.Inv(Apply(st, step))
  {
    match step
    case Connects(c) => ConnectKeepsSpies(st, c);
    case Registers(s, none) => Spies.EnrolKeeps(st.clients, st.names.Keys, st.spying, st.book, s, none);
    case Subscribes(c, p) =>
    case SpiesOn(c, s, room, spare) =>
      assert s == st.services[s.name][s.ident];
      SpyKeepsSpies(st, c, s, room, spare);
    case Departs(c, exactKeys, globKeys) => Spies.RemoveSpiesKeeps(st.clients, st.names.Keys, st.spying, st.book, c);
    case _ => QuietSteps(st, step);
  }

  /** What a step does to the spies. */
  lemma BookStep(st: State, step: Step)
    requires Enabled(st, step)
    ensures Apply(st, step).book ==
            match step
            case Registers(s, none) => Enrol(st.book, s, none)
            case SpiesOn(c, s, room, spare) => AddSpy(st.book, c, s, room, spare)
            case Departs(c, _, _) => RemoveSpies(st.book, Spying(st, c), c)
            case _ => st.book
  {
    match step
    case Subscribes(_, _) =>
    case Requests(_, _) =>
    case Replies(_, _, _) =>
    case _ =>
  }

  /** What a client spies on is known to the book. */
  lemma SpiedOnAreKnown(st: State, c: Client)
    requires Spies.Inv(st) && Connected(st, c)
    ensures Spies.BookOk(st.book) && forall s :: s in Spying(st, c) ==> s in st.book.spies
  {
    assert Spying(st, c) == Listed(st.spying, st.clients[c.id]);
  }

  /** Service objects stay known to the book. */
  lemma ServicesStay(st: State, step: Step)
    requires Spies.Inv(st) && Enabled(st, step)
    ensures forall s :: s in st.book.spies ==> s in Apply(st, step).book.spies
  {
    BookStep(st, step);
    match step
    case Departs(c, _, _) =>
      SpiedOnAreKnown(st, c);
      Spies.DropSpies(st.book, Spying(st, c), c);
    case _ =>
  }

  /** What a step does to the table of pending requests. */
  lemma TableStep(st: State, step: Step)
    requires Enabled(st, step)
    ensures Apply(st, step).table ==
            match step
            case Requests(c, m) => RequestTable(st, c, m)
            case Replies(_, id, _) => R.Settle(st.table, id)
            case Fires(k) => R.Expire(st.table, k)
            case _ => st.table
  {
    match step
    case Subscribes(c, p) =>
    case SpiesOn(c, s, room, spare) =>
    case _ =>
  }

  lemma StepKeepsTable(st: State, step: Step)
    requires R.Inv(st.table) && Enabled(st, step)
    ensures R.Inv(Apply(st, step).table)
  {
    TableStep(st, step);
    match step
    case Requests(c, m) =>
      if Target(st, m).Some? {
        R.TrackKeeps(st.table, m.id, c, st.book.spies[Target(st, m).value]);
      }
    case Replies(_, id, answer) => R.SettleKeeps(st.table, id);
    case Fires(k) => R.ExpireKeeps(st.table, k);
    case _ =>
  }

  lemma StepKeepsKeys(st: State, step: Step)
    requires Registry.WellKeyed(st.services) && Enabled(st, step)
    ensures Registry.WellKeyed(Apply(st, step).services)
  {
    match step
    case Registers(s, _) => Registry.StoreKeyed(st.services, s);
    case Departs(c, _, _) => Registry.UnregisterKeyed(st.services, Owned(st, c));
    case Subscribes(_, _) =>
    case SpiesOn(_, _, _, _) =>
    case _ =>
  }

  /** Every step that the source can take keeps the invariant. */
  lemma StepKeeps(st: State, step: Step)
    requires Inv(st) && Enabled(st, step)
    ensures Inv(Apply(st, step))
  {
    StepKeepsMemory(st, step);
    StepKeepsKeys(st, step);
    StepKeepsSpies(st, step);
    StepKeepsSubscriptions(st, step);
    StepKeepsTable(st, step);
  }

  lemma {:induction false} LegalConcat(st: State, steps: seq<Step>, more: seq<Step>)
    requires Legal(st, steps) && Legal(Exec(st, steps), more)
    ensures Legal(st, steps + more) && Exec(st, steps + more) == Exec(Exec(st, steps), more)
    decreases |steps|
  {
    if steps == [] {
      ConcatNil(more);
    } else {
      LegalConcat(Apply(st, steps[0]), steps[1..], more);
      ConcatTail(steps, more);
    }
  }

  lemma LegalOne(st: State, step: Step)
    requires Enabled(st, step)
    ensures Legal(st, [step]) && Exec(st, [step]) == Apply(st, step)
  {
    assert [step][1..] == [];
  }

  /** A legal run can go on with any enabled step. */
  lemma LegalSnoc(st: State, steps: seq<Step>, step: Step)
    requires Legal(st, steps) && Enabled(Exec(st, steps), step)
    ensures Legal(st, steps + [step]) && Exec(st, steps + [step]) == Apply(Exec(st, steps), step)
  {
    LegalOne(Exec(st, steps), step);
    LegalConcat(st, steps, [step]);
  }

  lemma {:induction false} RunKeeps(st: State, steps: seq<Step>)
    requires Inv(st) && Legal(st, steps)
    ensures Inv(Exec(st, steps))
    decreases |steps|
  {
    if steps != [] {
      StepKeeps(st, steps[0]);
      RunKeeps(Apply(st, steps[0]), steps[1..]);
    }
  }

  lemma StepMirrors(st: State, step: Step)
    requires Inv(st) && Registry.Inv(st) && Enabled(st, step)
    ensures Inv(Apply(st, step))
    ensures Registry.Inv(Apply(st, step)) <==> (step.Registers? ==> Connected(st, step.s.client))
  {
    StepKeeps(st, step);
    ServicesStay(st, step);
    StepKeepsRegistry(st, step);
  }

  lemma {:induction false} RunKeepsMirror(st: State, steps: seq<Step>)
    requires Inv(st) && Registry.Inv(st) && Legal(st, steps) && RegistrationsOrderly(st, steps)
    ensures Registry.Inv(Exec(st, steps))
    decreases |steps|
  {
    if steps != [] {
      StepMirrors(st, steps[0]);
      RunKeepsMirror(Apply(st, steps[0]), steps[1..]);
    }
  }

  ghost predicate AlwaysMirrors(st: State, steps: seq<Step>)
    requires Legal(st, steps)
    decreases |steps|
  {
    Registry.Inv(st) && (steps == [] || AlwaysMirrors(Apply(st, steps[0]), steps[1..]))
  }

  /** The mirror holds at every moment of a run if and only if only connected clients register. */
  lemma {:induction false} MirrorsExactly(st: State, steps: seq<Step>)
    requires Inv(st) && Registry.Inv(st) && Legal(st, steps)
    ensures AlwaysMirrors(st, steps) <==> RegistrationsOrderly(st, steps)
    decreases |steps|
  {
    if steps != [] {
      StepMirrors(st, steps[0]);
      if Registry.Inv(Apply(st, steps[0])) {
        MirrorsExactly(Apply(st, steps[0]), steps[1..]);
      }
    }
  }

  // ----------------------------------------------------------- reachable states

  /** The invariant holds in every state that a new broker can reach. */
  lemma ReachableInv(steps: seq<Step>)
    requires Legal(INIT, steps)
    ensures Inv(Exec(INIT, steps))
  {
    InitInv();
    RunKeeps(INIT, steps);
  }

  lemma ReachableMirror(steps: seq<Step>)
    requires Legal(INIT, steps) && RegistrationsOrderly(INIT, steps)
    ensures Registry.Inv(Exec(INIT, steps))
  {
    InitInv();
    RunKeepsMirror(INIT, steps);
  }

  /**
   * When only connected clients register: a connected client's list is without
   * duplicates and has exactly the services registered that it owns.
   */
  lemma ListsAreRegistered(steps: seq<Step>, c: Client, s: Service)
    requires Legal(INIT, steps) && RegistrationsOrderly(INIT, steps) && Connected(Exec(INIT, steps), c)
    ensures var st := Exec(INIT, steps);
            NoDup(Owned(st, c)) && (s in Owned(st, c) <==> Registered(st, s) && s.client == c)
  {
    ReachableMirror(steps);
    Registry.OwnedIffRegistered(Exec(INIT, steps), c, s);
    assert Registry.ListsItsOwn(Exec(INIT, steps), Exec(INIT, steps).clients[c.id]);
  }

  /** ... so a departure takes exactly the services of the client that leaves. */
  lemma DeparturesTakeTheirOwn(steps: seq<Step>, c: Client, exactKeys: seq<string>, globKeys: seq<string>,
          name: string, ident: string)
    requires Legal(INIT, steps) && RegistrationsOrderly(INIT, steps) && Connected(Exec(INIT, steps), c)
    ensures var st := Exec(INIT, steps);
            Lookup(Depart(st, c, exactKeys, globKeys).services, name, ident) ==
            match Lookup(st.services, name, ident)
            case None => None
            case Some(s) => if s.client == c then None else Some(s)
  {
    ReachableMirror(steps);
    Registry.DepartureTakesItsOwn(Exec(INIT, steps), c, exactKeys, globKeys, name, ident);
  }

  /** In every reachable state, a connected client lists each pattern once, and just those it is indexed under. */
  lemma ListsAreIndexed(steps: seq<Step>, c: Client, p: string)
    requires Legal(INIT, steps) && Connected(Exec(INIT, steps), c)
    ensures var st := Exec(INIT, steps);
            NoDup(Patterns(st, c)) && (p in Patterns(st, c) <==> c in Clients(if '*' in p then st.glob else st.exact, p))
  {
    ReachableInv(steps);
    Subscriptions.SubscribedIffIndexed(Exec(INIT, steps), c, p);
    assert Subscriptions.ClientOk(Exec(INIT, steps), Exec(INIT, steps).clients[c.id]);
  }

  /**
   * In every reachable state, a client is among the spies of a service, replaced
   * ones included, as often as the service is on its list; and not at all once it
   * has left.
   */
  lemma SpiesAreListed(steps: seq<Step>, c: Client, s: Service)
    requires Legal(INIT, steps)
    requires c in Exec(INIT, steps).names && s in Exec(INIT, steps).book.spies
    ensures var st := Exec(INIT, steps);
            multiset(SpiesOf(st.book, s))[c] == if Connected(st, c) then multiset(Spying(st, c))[s] else 0
  {
    ReachableInv(steps);
    var st := Exec(INIT, steps);
    assert Spies.Symmetric(st.clients, st.spying, st.book, s, c);
  }

  // -------------------------------------------------------------------- panics

  /** How often the name `cellaserv` is registered. */
  function Startups(steps: seq<Step>): nat {
    if steps == [] then 0
    else (if steps[0].Registers? && steps[0].s.name == "cellaserv" then 1 else 0) + Startups(steps[1..])
  }

  lemma StartedStep(st: State, step: Step)
    requires Enabled(st, step)
    ensures var starts := step.Registers? && step.s.name == "cellaserv";
            Apply(st, step).started == (st.started || starts) && Apply(st, step).crashed == (st.started && starts)
  {
    match step
    case Subscribes(_, _) =>
    case SpiesOn(_, _, _, _) =>
    case _ =>
  }

  /** A run panics if and only if it registers that name for the second time. */
  lemma {:induction false} PanicsExactly(st: State, steps: seq<Step>)
    requires Legal(st, steps) && !st.crashed
    ensures Exec(st, steps).crashed <==> Startups(steps) + (if st.started then 1 else 0) >= 2
    decreases |steps|
  {
    if steps != [] {
      StartedStep(st, steps[0]);
      if Apply(st, steps[0]).crashed {
        assert steps[1..] == [];
      } else {
        PanicsExactly(Apply(st, steps[0]), steps[1..]);
      }
    }
  }
}
