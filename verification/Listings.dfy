/**
 * What the listing functions return, as one value, and what the broker's own
 * `log.cellaserv.*` events say about it.
 */
module Listings {
  import opened Seqs
  import opened Objects
  import opened BrokerState
  import opened Effects
  import Reg = Registry
  import Subscriptions
  import Memory
  import Runs

  /** Services by key with their owner's id, subscriptions as (event, client id), names by client id. */
  datatype Listing = Listing(
    services: map<(string, string), string>,
    subscribers: set<(string, string)>,
    clients: map<string, string>)

  const NOTHING := Listing(map[], {}, map[])

  function FlatKeys(services: Registry): set<(string, string)> {
    set name, ident | name in services && ident in services[name] :: (name, ident)
  }

  function ListServices(services: Registry): map<(string, string), string> {
    map k | k in FlatKeys(services) :: services[k.0][k.1].client.id
  }

  function ListSubscribers(m: Subscribers): set<(string, string)> {
    set k, c | k in m && c in m[k] :: (k, c.id)
  }

  function ListClients(clients: map<string, Client>, names: map<Client, string>): map<string, string> {
    map id | id in clients :: if clients[id] in names then names[clients[id]] else ""
  }

  function List(st: State): Listing {
    Listing(ListServices(st.services), Subscribers(st), ListClients(st.clients, st.names))
  }

  /** An observer's view after one more event. */
  function See(l: Listing, e: Event): Listing {
    match e
    case NewClient(id, name) => l.(clients := l.clients[id := name])
    case LostClient(id, _) => l.(clients := l.clients - {id})
    case ClientName(id, name) => l.(clients := l.clients[id := name])
    case NewService(owner, name, ident) => l.(services := l.services[(name, ident) := owner])
    case LostService(_, name, ident) => l.(services := l.services - {(name, ident)})
    case NewSubscriber(p, id) => l.(subscribers := l.subscribers + {(p, id)})
    case LostSubscriber(p, id) => l.(subscribers := l.subscribers - {(p, id)})
  }

  function SeeAll(l: Listing, es: seq<Event>): Listing
    decreases |es|
  {
    if es == [] then l else SeeAll(See(l, es[0]), es[1..])
  }

  lemma {:induction false} SeeAllConcat(l: Listing, es: seq<Event>, fs: seq<Event>)
    ensures SeeAll(l, es + fs) == SeeAll(SeeAll(l, es), fs)
    decreases |es|
  {
    if es == [] {
      assert es + fs == fs;
    } else {
      SeeAllConcat(See(l, es[0]), es[1..], fs);
      assert (es + fs)[1..] == es[1..] + fs;
    }
  }

  // ------------------------------------------------------ services, by key

  lemma ListServicesAt(services: Registry, name: string, ident: string)
    ensures (name, ident) in ListServices(services) <==> Lookup(services, name, ident).Some?
    ensures (name, ident) in ListServices(services) ==>
              ListServices(services)[(name, ident)] == Lookup(services, name, ident).value.client.id
  {
  }

  lemma ListStored(services: Registry, s: Service)
    ensures ListServices(Store(services, s)) == ListServices(services)[(s.name, s.ident) := s.client.id]
  {
    var l, l' := ListServices(services)[(s.name, s.ident) := s.client.id], ListServices(Store(services, s));
    forall k: (string, string)
      ensures k in l' <==> k in l
      ensures k in l ==> l'[k] == l[k]
    {
      ListServicesAt(services, k.0, k.1);
      ListServicesAt(Store(services, s), k.0, k.1);
    }
  }

  lemma ListUnregistered(services: Registry, s: Service)
    ensures ListServices(Unregister(services, s)) == ListServices(services) - {(s.name, s.ident)}
  {
    var l, l' := ListServices(services), ListServices(Unregister(services, s));
    forall k: (string, string)
      ensures k in l' <==> k in l && k != (s.name, s.ident)
      ensures k in l' ==> l'[k] == l[k]
    {
      ListServicesAt(services, k.0, k.1);
      ListServicesAt(Unregister(services, s), k.0, k.1);
    }
  }

  lemma {:induction false} SeeLost(l: Listing, services: Registry, list: seq<Service>)
    requires l.services == ListServices(services)
    ensures SeeAll(l, LostAll(list)) == l.(services := ListServices(UnregisterAll(services, list)))
    decreases |list|
  {
    if list != [] {
      LostAllHead(list);
      SeeAllConcat(l, [Lost(list[0])], LostAll(list[1..]));
      SeeOne(l, Lost(list[0]));
      ListUnregistered(services, list[0]);
      SeeLost(See(l, Lost(list[0])), Unregister(services, list[0]), list[1..]);
    }
  }

  // --------------------------------------------------------- subscriptions

  lemma {:induction false} SeeDropped(l: Listing, es: seq<Event>)
    requires forall e :: e in es ==> e.LostSubscriber?
    ensures SeeAll(l, es) == l.(subscribers := l.subscribers - set e | e in es :: (e.pattern, e.id))
    decreases |es|
  {
    if es != [] {
      assert es[0] in es && forall e :: e in es <==> e == es[0] || e in es[1..];
      SeeDropped(See(l, es[0]), es[1..]);
      assert (set e | e in es :: (e.pattern, e.id)) == {(es[0].pattern, es[0].id)} + set e | e in es[1..] :: (e.pattern, e.id);
    }
  }

  lemma InList(st: State, p: string, id: string)
    requires Subscriptions.Inv(st)
    ensures (p, id) in List(st).subscribers <==> id in st.clients && p in Patterns(st, st.clients[id])
  {
    assert Subscriptions.KeyOk(st, st.exact, p) && Subscriptions.KeyOk(st, st.glob, p);
    if id in st.clients {
      Subscriptions.SubscribedIffIndexed(st, st.clients[id], p);
    }
  }

  // ----------------------------------------------------------- one step each

  /** `st'` has told of `es` since `st`. */
  predicate Told(st: State, st': State, es: seq<Event>) {
    st'.net.log == st.net.log + es
  }

  lemma ConnectSeen(st: State, c: Client)
    requires c !in st.names && forall id :: id in st.clients ==> st.clients[id] in st.names
    ensures Told(st, Connect(st, c), [NewClient(c.id, "")])
    ensures List(Connect(st, c)) == See(List(st), NewClient(c.id, ""))
  {
    assert ListClients(st.clients[c.id := c], st.names[c := ""]) == ListClients(st.clients, st.names)[c.id := ""];
  }

  lemma NamesSeenExactly(clients: map<string, Client>, names: map<Client, string>, c: Client, name: string)
    requires forall id :: id in clients ==> clients[id].id == id && clients[id] in names
    ensures ListClients(clients, names[c := name]) == ListClients(clients, names)[c.id := name] <==>
            c.id in clients && (clients[c.id] == c || names[clients[c.id]] == name)
  {
    var l, l' := ListClients(clients, names)[c.id := name], ListClients(clients, names[c := name]);
    if c.id in clients {
      assert forall id :: id in clients && id != c.id ==> l'[id] == l[id];
      assert l'[c.id] == if clients[c.id] == c then name else names[clients[c.id]];
      assert l.Keys == l'.Keys;
    } else {
      assert c.id in l && c.id !in l';
    }
  }

  /** The client is still connected, or a later connection from the same address already goes by that name. */
  predicate RenameAgrees(st: State, c: Client, name: string) {
    Connected(st, c) || (c.id in st.clients && NameOf(st, st.clients[c.id]) == name)
  }

  lemma RenameTold(st: State, c: Client, name: string)
    ensures Told(st, Rename(st, c, name), [ClientName(c.id, name)])
    ensures List(Rename(st, c, name)) == List(st).(clients := ListClients(st.clients, st.names[c := name]))
  {
  }

  lemma RenameListed(st: State, c: Client, name: string)
    requires forall id :: id in st.clients ==> st.clients[id].id == id && st.clients[id] in st.names
    ensures ListClients(st.clients, st.names[c := name]) == List(st).clients[c.id := name] <==> RenameAgrees(st, c, name)
  {
    NamesSeenExactly(st.clients, st.names, c, name);
  }

  /** A rename keeps the listing in step with its event exactly in these two cases. */
  lemma RenameSeenExactly(st: State, c: Client, name: string)
    requires forall id :: id in st.clients ==> st.clients[id].id == id && st.clients[id] in st.names
    ensures Told(st, Rename(st, c, name), [ClientName(c.id, name)])
    ensures List(Rename(st, c, name)) == See(List(st), ClientName(c.id, name)) <==> RenameAgrees(st, c, name)
  {
    RenameTold(st, c, name);
    RenameListed(st, c, name);
    Renamed(List(st), ListClients(st.clients, st.names[c := name]), c.id, name);
  }

  lemma Renamed(l: Listing, clients: map<string, string>, id: string, name: string)
    ensures l.(clients := clients) == See(l, ClientName(id, name)) <==> clients == l.clients[id := name]
  {
  }

  function Subscribers(st: State): set<(string, string)> {
    ListSubscribers(st.exact) + ListSubscribers(st.glob)
  }

  /** The subscriptions listed are the patterns of the connected clients. */
  ghost predicate ListsPatterns(subs: set<(string, string)>, clients: map<string, Client>,
          subscribes: map<Client, seq<string>>) {
    forall k, id :: (k, id) in subs <==>
      id in clients && clients[id] in subscribes && k in subscribes[clients[id]]
  }

  lemma SubscribersListed(st: State)
    requires Subscriptions.Inv(st)
    ensures ListsPatterns(Subscribers(st), st.clients, st.subscribes)
  {
    forall k, id
      ensures (k, id) in Subscribers(st) <==> id in st.clients && st.clients[id] in st.subscribes && k in st.subscribes[st.clients[id]]
    {
      InList(st, k, id);
    }
  }

  lemma OneMore(subs: set<(string, string)>, subs': set<(string, string)>, clients: map<string, Client>,
                subscribes: map<Client, seq<string>>, c: Client, ps: seq<string>, p: string)
    requires ListsPatterns(subs, clients, subscribes) && ListsPatterns(subs', clients, subscribes[c := ps + [p]])
    requires ps == if c in subscribes then subscribes[c] else []
    requires c.id in clients && clients[c.id] == c && forall id :: id in clients ==> clients[id].id == id
    ensures subs' == subs + {(p, c.id)}
  {
    forall q: (string, string)
      ensures q in subs' <==> q in subs + {(p, c.id)}
    {
      assert q == (q.0, q.1);
    }
  }

  lemma SubscribedListed(st: State, c: Client, p: string)
    requires Subscriptions.Inv(st) && Connected(st, c) && p !in Patterns(st, c)
    ensures ListsPatterns(Subscribers(Subscribing(st, c, p)), st.clients, st.subscribes[c := Patterns(st, c) + [p]])
  {
    Subscriptions.SubscribeKeeps(st, c, p);
    SubscribersListed(Subscribing(st, c, p));
  }

  lemma SubscribersAfter(st: State, c: Client, p: string)
    requires Subscriptions.Inv(st) && Connected(st, c) && p !in Patterns(st, c)
    ensures Subscribers(Subscribing(st, c, p)) == Subscribers(st) + {(p, c.id)}
  {
    SubscribersListed(st);
    SubscribedListed(st, c, p);
    OneMore(Subscribers(st), Subscribers(Subscribing(st, c, p)), st.clients, st.subscribes, c, Patterns(st, c), p);
  }

  lemma SubscribeTells(st: State, c: Client, p: string)
    requires p !in Patterns(st, c)
    ensures Told(st, Subscribing(st, c, p), [NewSubscriber(p, c.id)])
  {
  }

  lemma SubscribeLists(st: State, c: Client, p: string)
    requires p !in Patterns(st, c)
    requires Subscribers(Subscribing(st, c, p)) == Subscribers(st) + {(p, c.id)}
    ensures List(Subscribing(st, c, p)) == See(List(st), NewSubscriber(p, c.id))
  {
    ListFrame(st, Subscribing(st, c, p));
    SeeSubscribed(List(st), List(Subscribing(st, c, p)), Subscribers(Subscribing(st, c, p)), p, c.id);
  }

  lemma SeeSubscribed(l: Listing, l': Listing, subs: set<(string, string)>, p: string, id: string)
    requires l' == l.(subscribers := subs) && subs == l.subscribers + {(p, id)}
    ensures l' == See(l, NewSubscriber(p, id))
  {
  }

  lemma ListFrame(st: State, st': State)
    requires st'.services == st.services && st'.clients == st.clients && st'.names == st.names
    ensures List(st') == List(st).(subscribers := Subscribers(st'))
  {
  }

  function Subscribed(st: State, c: Client, p: string): seq<Event> {
    if p in Patterns(st, c) then [] else [NewSubscriber(p, c.id)]
  }

  lemma SubscribeSeen(st: State, c: Client, p: string)
    requires Subscriptions.Inv(st) && Connected(st, c)
    ensures Told(st, Subscribing(st, c, p), Subscribed(st, c, p))
    ensures List(Subscribing(st, c, p)) == SeeAll(List(st), Subscribed(st, c, p))
  {
    if p in Patterns(st, c) {
      assert st.net.log + [] == st.net.log;
    } else {
      SubscribersAfter(st, c, p);
      SubscribeTells(st, c, p);
      SubscribeLists(st, c, p);
      SeeOne(List(st), NewSubscriber(p, c.id));
    }
  }

  lemma SeeOne(l: Listing, e: Event)
    ensures SeeAll(l, [e]) == See(l, e)
  {
    assert [e][1..] == [];
  }

  function Replaced(st: State, s: Service): seq<Event> {
    match Lookup(st.services, s.name, s.ident)
    case None => []
    case Some(d) => [Lost(d)]
  }

  function Announced(st: State, s: Service): seq<Event> {
    if Panics(st, s) then [] else [NewService(s.client.id, s.name, s.ident)]
  }

  lemma SeeReplaced(st: State, s: Service, l: Listing)
    requires Reg.EntryKeyed(st.services, s.name, s.ident) && l.services == ListServices(st.services)
    ensures SeeAll(l, Replaced(st, s)) == l.(services := l.services - {(s.name, s.ident)})
  {
    ListServicesAt(st.services, s.name, s.ident);
    match Lookup(st.services, s.name, s.ident) {
      case None => assert l.services - {(s.name, s.ident)} == l.services;
      case Some(d) =>
        SeeOne(l, LostService(d.client.id, d.name, d.ident));
    }
  }

  lemma AnnounceTells(st: State, s: Service)
    ensures Announce(st, s).log == st.net.log + (Replaced(st, s) + Announced(st, s))
  {
  }

  lemma SeeAnnounced(l: Listing, st: State, s: Service, services: map<(string, string), string>)
    requires l.services == services - {(s.name, s.ident)}
    ensures SeeAll(l, Announced(st, s)) == l.(services := services[(s.name, s.ident) := s.client.id]) <==> !Panics(st, s)
  {
    var k := (s.name, s.ident);
    SeeOne(l, NewService(s.client.id, s.name, s.ident));
    assert (services - {k})[k := s.client.id] == services[k := s.client.id];
    assert k in services[k := s.client.id] && k !in l.services;
  }

  /** A registration is told of in full, unless the broker panics half-way. */
  lemma RegisterSeen(st: State, s: Service, none: array<Client>)
    requires !st.crashed && Reg.EntryKeyed(st.services, s.name, s.ident)
    ensures var st' := Registering(st, s, none);
            var es := Replaced(st, s) + Announced(st, s);
            && Told(st, st', es)
            && (List(st') == SeeAll(List(st), es) <==> !Panics(st, s))
  {
    var l := List(st);
    AnnounceTells(st, s);
    ListStored(st.services, s);
    SeeAllConcat(l, Replaced(st, s), Announced(st, s));
    SeeReplaced(st, s, l);
    SeeAnnounced(SeeAll(l, Replaced(st, s)), st, s, l.services);
  }

  lemma GoneAre(es: seq<Event>, cid: string, k: string, id: string)
    requires forall e :: e in es ==> e.LostSubscriber? && e.id == cid
    ensures (k, id) in (set e | e in es :: (e.pattern, e.id)) <==> id == cid && multiset(es)[LostSubscriber(k, cid)] > 0
  {
    assert multiset(es)[LostSubscriber(k, cid)] > 0 <==> LostSubscriber(k, cid) in es;
  }

  lemma AllFewer(subs: set<(string, string)>, subs': set<(string, string)>, clients: map<string, Client>,
                 subscribes: map<Client, seq<string>>, c: Client, es: seq<Event>)
    requires ListsPatterns(subs, clients, subscribes) && ListsPatterns(subs', clients - {c.id}, subscribes)
    requires c.id in clients && clients[c.id] == c && forall id :: id in clients ==> clients[id].id == id
    requires forall e :: e in es ==> e.LostSubscriber? && e.id == c.id
    requires forall k :: multiset(es)[LostSubscriber(k, c.id)] == if c in subscribes && k in subscribes[c] then 1 else 0
    ensures subs' == subs - set e | e in es :: (e.pattern, e.id)
  {
    forall q: (string, string)
      ensures q in subs' <==> q in subs - set e | e in es :: (e.pattern, e.id)
    {
      assert q == (q.0, q.1);
      GoneAre(es, c.id, q.0, q.1);
    }
  }

  lemma DepartedListed(st: State, c: Client, exactKeys: seq<string>, globKeys: seq<string>)
    requires Subscriptions.Inv(st) && Connected(st, c)
    ensures ListsPatterns(Subscribers(Depart(st, c, exactKeys, globKeys)), st.clients - {c.id}, st.subscribes)
  {
    Subscriptions.DepartKeeps(st, c, exactKeys, globKeys);
    SubscribersListed(Depart(st, c, exactKeys, globKeys));
  }

  /** A departure's lost-subscriber events take away exactly what the client was subscribed to. */
  lemma DroppedSeen(st: State, c: Client, exactKeys: seq<string>, globKeys: seq<string>, l: Listing)
    requires Subscriptions.Inv(st) && Connected(st, c)
    requires Enumerates(exactKeys, st.exact) && Enumerates(globKeys, st.glob)
    requires l.subscribers == Subscribers(st)
    ensures var es := Dropped(st.exact, exactKeys, c) + Dropped(st.glob, globKeys, c);
            SeeAll(l, es) == l.(subscribers := Subscribers(Depart(st, c, exactKeys, globKeys)))
  {
    var es := Dropped(st.exact, exactKeys, c) + Dropped(st.glob, globKeys, c);
    forall k
      ensures multiset(es)[LostSubscriber(k, c.id)] == if c in st.subscribes && k in st.subscribes[c] then 1 else 0
      ensures forall e :: e in es ==> e.LostSubscriber? && e.id == c.id
    {
      Subscriptions.OneEventPerSubscription(st, c, exactKeys, globKeys, k);
    }
    assert multiset(es)[LostSubscriber("", c.id)] <= 1;
    SeeDropped(l, es);
    SubscribersListed(st);
    DepartedListed(st, c, exactKeys, globKeys);
    AllFewer(Subscribers(st), Subscribers(Depart(st, c, exactKeys, globKeys)), st.clients, st.subscribes, c, es);
  }

  lemma ClientsSeen(st: State, c: Client, l: Listing)
    requires l.clients == ListClients(st.clients, st.names)
    ensures See(l, LostClient(c.id, NameOf(st, c))) == l.(clients := ListClients(st.clients - {c.id}, st.names))
  {
    assert ListClients(st.clients - {c.id}, st.names) == ListClients(st.clients, st.names) - {c.id};
  }

  lemma DepartSeen(st: State, c: Client, exactKeys: seq<string>, globKeys: seq<string>)
    requires Subscriptions.Inv(st) && Connected(st, c)
    requires Enumerates(exactKeys, st.exact) && Enumerates(globKeys, st.glob)
    ensures var es := DepartLog(st, c, exactKeys, globKeys);
            Told(st, Depart(st, c, exactKeys, globKeys), es) && List(Depart(st, c, exactKeys, globKeys)) == SeeAll(List(st), es)
  {
    var lost := LostAll(Owned(st, c));
    var dropped := Dropped(st.exact, exactKeys, c) + Dropped(st.glob, globKeys, c);
    var last := LostClient(c.id, NameOf(st, c));
    FarewellLog(st, c, exactKeys, globKeys);
    SeeLost(List(st), st.services, Owned(st, c));
    var l1 := SeeAll(List(st), lost);
    DroppedSeen(st, c, exactKeys, globKeys, l1);
    var l2 := SeeAll(l1, dropped);
    ClientsSeen(st, c, l2);
    SeeAllConcat(List(st), lost, dropped);
    SeeAllConcat(List(st), lost + dropped, [last]);
    SeeOne(l2, last);
  }

  // ------------------------------------------------------------- whole runs

  /** The events a step publishes. */
  ghost function Events(st: State, step: Step): seq<Event> {
    match step
    case Connects(c) => [NewClient(c.id, "")]
    case Renames(c, name) => [ClientName(c.id, name)]
    case Registers(s, _) => Replaced(st, s) + Announced(st, s)
    case Subscribes(c, p) => Subscribed(st, c, p)
    case Departs(c, exactKeys, globKeys) => DepartLog(st, c, exactKeys, globKeys)
    case _ => []
  }

  lemma ListSame(st: State, st': State)
    requires st'.services == st.services && st'.clients == st.clients && st'.names == st.names
    requires st'.exact == st.exact && st'.glob == st.glob && st'.net.log == st.net.log
    ensures Told(st, st', []) && List(st') == List(st)
  {
    assert st.net.log + [] == st.net.log;
  }

  lemma SilentSeen(st: State, step: Step)
    requires Enabled(st, step)
    requires step.Publishes? || step.SpiesOn? || step.Requests? || step.Replies? || step.Fires?
    ensures Told(st, Apply(st, step), []) && List(Apply(st, step)) == List(st) && !Apply(st, step).crashed
  {
    match step
    case Publishes(_, topic, payload) => ListSame(st, DoPublish(st, topic, payload));
    case SpiesOn(c, s, room, spare) => ListSame(st, Spy(st, c, s, room, spare));
    case Requests(c, m) =>
      Memory.RequestNetKeys(st, c, m);
      ListSame(st, Requesting(st, c, m));
    case Replies(_, id, answer) =>
      Memory.ReplyNetKeys(st, id, answer);
      ListSame(st, Replying(st, id, answer));
    case Fires(k) =>
      ListSame(st, Fire(st, k));
  }

  ghost predicate IdsOk(st: State) {
    forall id :: id in st.clients ==> st.clients[id].id == id && st.clients[id] in st.names
  }

  lemma OwnSeen(st: State, step: Step)
    requires IdsOk(st) && Enabled(st, step) && (step.Connects? || step.Renames?)
    ensures Told(st, Apply(st, step), Events(st, step)) && !Apply(st, step).crashed
    ensures List(Apply(st, step)) == SeeAll(List(st), Events(st, step)) <==>
            (step.Renames? ==> RenameAgrees(st, step.c, step.name))
  {
    match step
    case Connects(c) =>
      ConnectSeen(st, c);
      SeeOne(List(st), NewClient(c.id, ""));
    case Renames(c, name) =>
      RenameSeenExactly(st, c, name);
      SeeOne(List(st), ClientName(c.id, name));
  }

  /** The step does not panic, and if it is a rename it agrees with its event. */
  ghost predicate Seen(st: State, step: Step)
    requires Enabled(st, step)
  {
    !Apply(st, step).crashed && (step.Renames? ==> RenameAgrees(st, step.c, step.name))
  }

  /** A step's events tell the whole of what it does to the listings in just those cases. */
  lemma StepSeen(st: State, step: Step)
    requires IdsOk(st) && Subscriptions.Inv(st) && Enabled(st, step)
    requires step.Registers? ==> Reg.EntryKeyed(st.services, step.s.name, step.s.ident)
    ensures Told(st, Apply(st, step), Events(st, step))
    ensures List(Apply(st, step)) == SeeAll(List(st), Events(st, step)) <==> Seen(st, step)
  {
    match step
    case Registers(s, none) => RegisterSeen(st, s, none);
    case Subscribes(c, p) => SubscribeSeen(st, c, p);
    case Departs(c, exactKeys, globKeys) => DepartSeen(st, c, exactKeys, globKeys);
    case Connects(_) => OwnSeen(st, step);
    case Renames(_, _) => OwnSeen(st, step);
    case _ => SilentSeen(st, step);
  }

  ghost function AllEvents(st: State, steps: seq<Step>): seq<Event>
    requires Legal(st, steps)
    decreases |steps|
  {
    if steps == [] then [] else Events(st, steps[0]) + AllEvents(Apply(st, steps[0]), steps[1..])
  }

  lemma StepSeenInv(st: State, step: Step)
    requires Runs.Inv(st) && Enabled(st, step)
    ensures Told(st, Apply(st, step), Events(st, step))
    ensures List(Apply(st, step)) == SeeAll(List(st), Events(st, step)) <==> Seen(st, step)
  {
    if step.Registers? {
      assert Reg.EntryKeyed(st.services, step.s.name, step.s.ident);
    }
    StepSeen(st, step);
  }

  lemma {:induction false} RunSeenUnlessCrashed(st: State, steps: seq<Step>)
    requires Runs.Inv(st) && Legal(st, steps) && RenamesOrderly(st, steps) && !st.crashed
    ensures Exec(st, steps).net.log == st.net.log + AllEvents(st, steps)
    ensures List(Exec(st, steps)) == SeeAll(List(st), AllEvents(st, steps)) <==> !Exec(st, steps).crashed
    decreases |steps|
  {
    if steps == [] {
      ConcatNil(st.net.log);
    } else {
      var st1 := Apply(st, steps[0]);
      var es, fs := Events(st, steps[0]), AllEvents(st1, steps[1..]);
      StepSeenInv(st, steps[0]);
      Runs.StepKeeps(st, steps[0]);
      SeeAllConcat(List(st), es, fs);
      if st1.crashed {
        assert steps[1..] == [];
        ConcatNil(es);
      } else {
        RunSeenUnlessCrashed(st1, steps[1..]);
        ConcatAssoc(st.net.log, es, fs);
      }
    }
  }

  /**
   * Over any run with renames of connected clients only, an observer who starts
   * from the listings and applies the published events in order has the listings
   * at the end, exactly when `cellaserv` is not registered for a second time.
   */
  lemma RunSeen(st: State, steps: seq<Step>)
    requires Runs.Inv(st) && Legal(st, steps) && RenamesOrderly(st, steps) && !st.crashed
    ensures Exec(st, steps).net.log == st.net.log + AllEvents(st, steps)
    ensures List(Exec(st, steps)) == SeeAll(List(st), AllEvents(st, steps)) <==>
            Runs.Startups(steps) + (if st.started then 1 else 0) <= 1
  {
    RunSeenUnlessCrashed(st, steps);
    Runs.PanicsExactly(st, steps);
  }

  lemma InitListing()
    ensures List(INIT) == NOTHING && INIT.net.log == [] && !INIT.started && !INIT.crashed
  {
  }

  /** The event log of a whole run reconstructs what the listing functions return. */
  lemma LogReconstructsListings(steps: seq<Step>)
    requires Legal(INIT, steps) && RenamesOrderly(INIT, steps)
    ensures List(Exec(INIT, steps)) == SeeAll(NOTHING, Exec(INIT, steps).net.log) <==> Runs.Startups(steps) <= 1
  {
    Runs.InitInv();
    RunSeen(INIT, steps);
    InitListing();
    ConcatNil(AllEvents(INIT, steps));
  }

  // At every moment of a run, renames of clients that have left included.

  /** The log so far gives the listings. */
  ghost predicate InLog(st: State) {
    List(st) == SeeAll(NOTHING, st.net.log)
  }

  ghost predicate AlwaysInLog(st: State, steps: seq<Step>)
    requires Legal(st, steps)
    decreases |steps|
  {
    InLog(st) && (steps == [] || AlwaysInLog(Apply(st, steps[0]), steps[1..]))
  }

  ghost predicate RenamesAgree(st: State, steps: seq<Step>)
    requires Legal(st, steps)
    decreases |steps|
  {
    steps == [] ||
    ((steps[0].Renames? ==> RenameAgrees(st, steps[0].c, steps[0].name)) && RenamesAgree(Apply(st, steps[0]), steps[1..]))
  }

  lemma StepInLog(st: State, step: Step)
    requires Runs.Inv(st) && Enabled(st, step) && InLog(st)
    ensures InLog(Apply(st, step)) <==> Seen(st, step)
  {
    StepSeenInv(st, step);
    SeeAllConcat(NOTHING, st.net.log, Events(st, step));
  }

  lemma {:induction false} RunInLog(st: State, steps: seq<Step>)
    requires Runs.Inv(st) && Legal(st, steps) && InLog(st) && !st.crashed
    ensures AlwaysInLog(st, steps) <==>
            RenamesAgree(st, steps) && Runs.Startups(steps) + (if st.started then 1 else 0) <= 1
    decreases |steps|
  {
    if steps != [] {
      var st1 := Apply(st, steps[0]);
      StepInLog(st, steps[0]);
      Runs.StartedStep(st, steps[0]);
      if InLog(st1) {
        Runs.StepKeeps(st, steps[0]);
        RunInLog(st1, steps[1..]);
      }
    }
  }

  /**
   * The event log gives the listings at every moment of a run if and only if
   * every rename agrees with its event and `cellaserv` is registered at most once.
   */
  lemma LogAlwaysReconstructs(steps: seq<Step>)
    requires Legal(INIT, steps)
    ensures AlwaysInLog(INIT, steps) <==> RenamesAgree(INIT, steps) && Runs.Startups(steps) <= 1
  {
    Runs.InitInv();
    InitListing();
    RunInLog(INIT, steps);
  }
}
