/** Every object the broker can reach is one it knows: what each handler needs of the heap. */
module Memory {
  import opened Objects
  import opened Options
  import opened BrokerState
  import opened Effects
  import opened Spies
  import R = Requests

  ghost predicate ServicesKnown(services: Registry, b: SpyBook) {
    forall name, ident :: name in services && ident in services[name] ==> services[name][ident] in b.spies
  }

  ghost predicate OwnersKnown(b: SpyBook, known: set<Client>) {
    forall s :: s in b.spies ==> s.client in known
  }

  ghost predicate ListsKnown(lists: Lists, b: SpyBook) {
    forall c :: c in lists ==> forall s :: s in lists[c] ==> s in b.spies
  }

  ghost predicate SubscribersKnown(m: Subscribers, known: set<Client>) {
    forall k :: k in m ==> forall c :: c in m[k] ==> c in known
  }

  ghost predicate TableKnown(t: R.Table, b: SpyBook, known: set<Client>) {
    && (forall id :: id in t.pending ==> t.pending[id].sender in known && Backed(b, t.pending[id].spies))
    && (forall k :: k in t.armed ==> t.armed[k].client in known)
  }

  ghost predicate Closed(st: State) {
    var known := st.names.Keys;
    && known == st.owned.Keys == st.subscribes.Keys == st.spying.Keys == st.net.conn.Keys
    && st.net.closed <= known
    && (forall id :: id in st.clients ==> st.clients[id] in known)
    && ServicesKnown(st.services, st.book)
    && OwnersKnown(st.book, known)
    && ListsKnown(st.owned, st.book)
    && ListsKnown(st.spying, st.book)
    && SubscribersKnown(st.exact, known)
    && SubscribersKnown(st.glob, known)
    && BookOk(st.book)
    && StoreKnown(st.book, known)
    && TableKnown(st.table, st.book, known)
  }

  // What each handler reaches.

  ghost predicate CanPublish(exact: Subscribers, glob: Subscribers, n: Net) {
    SubscribersKnown(exact, n.conn.Keys) && SubscribersKnown(glob, n.conn.Keys)
  }

  ghost predicate CanRead(b: SpyBook, sl: Slice, n: Net) {
    Backed(b, sl) && forall c :: c in Contents(b, sl) ==> c in n.conn
  }

  ghost predicate CanForward(services: Registry, b: SpyBook, n: Net, name: string, ident: string) {
    match Lookup(services, name, ident)
    case None => true
    case Some(s) => s in b.spies && s.client in n.conn && CanRead(b, b.spies[s], n)
  }

  lemma ClosedCanPublish(st: State)
    requires Closed(st)
    ensures CanPublish(st.exact, st.glob, st.net)
  {
  }

  lemma ClosedCanRead(st: State, sl: Slice)
    requires Closed(st) && Backed(st.book, sl)
    ensures CanRead(st.book, sl, st.net)
  {
  }

  lemma ClosedCanForward(st: State, name: string, ident: string)
    requires Closed(st)
    ensures CanForward(st.services, st.book, st.net, name, ident)
  {
    match Lookup(st.services, name, ident)
    case None =>
    case Some(s) => ClosedCanRead(st, st.book.spies[s]);
  }

  ghost predicate CanReply(t: R.Table, b: SpyBook, n: Net, id: RequestId) {
    id in t.pending ==> t.pending[id].sender in n.conn && CanRead(b, t.pending[id].spies, n)
  }

  /** All that the handler of a client's message reaches. */
  ghost predicate CanServe(st: State, c: Client, m: Message) {
    && c in st.names && c in st.owned && c in st.subscribes && c in st.net.conn
    && CanPublish(st.exact, st.glob, st.net)
    && match m
       case Register(name, ident) =>
         (match Lookup(st.services, name, ident) case None => true case Some(s) => s.client in st.owned)
       case Request(_, name, ident, _, _) => CanForward(st.services, st.book, st.net, name, ident)
       case Reply(id, _) => CanReply(st.table, st.book, st.net, id)
       case _ => true
  }

  lemma ClosedCanServe(st: State, c: Client, m: Message)
    requires Closed(st) && Connected(st, c)
    ensures CanServe(st, c, m)
  {
    match m
    case Register(name, ident) => ClosedCanForward(st, name, ident);
    case Request(_, name, ident, _, _) => ClosedCanForward(st, name, ident);
    case Reply(id, _) =>
      if id in st.table.pending {
        ClosedCanRead(st, st.table.pending[id].spies);
      }
    case _ =>
  }

  ghost predicate AllBacked(b: SpyBook) {
    forall s :: s in b.spies ==> Backed(b, b.spies[s])
  }

  ghost predicate CanSpy(st: State, c: Client, s: Service) {
    c in st.spying && s in st.book.spies && Backed(st.book, st.book.spies[s])
  }

  ghost predicate CanFire(st: State, k: R.Timer) {
    k in st.table.armed && st.table.armed[k].client in st.net.conn
  }

  ghost predicate CanDepart(st: State, c: Client) {
    && c in st.names && c in st.owned && c in st.spying
    && CanPublish(st.exact, st.glob, st.net)
    && (forall s :: s in st.owned[c] ==> s in st.book.spies && CanRead(st.book, st.book.spies[s], st.net))
    && AllBacked(st.book) && forall s :: s in st.spying[c] ==> s in st.book.spies
  }

  lemma ClosedCanSpy(st: State, c: Client, s: Service)
    requires Closed(st) && Connected(st, c) && Registered(st, s)
    ensures CanSpy(st, c, s)
  {
    assert s == st.services[s.name][s.ident];
  }

  lemma ClosedCanFire(st: State, k: R.Timer)
    requires Closed(st) && k in st.table.armed
    ensures CanFire(st, k)
  {
  }

  lemma ClosedCanDepart(st: State, c: Client)
    requires Closed(st) && Connected(st, c)
    ensures CanDepart(st, c)
  {
    ClosedCanPublish(st);
    forall s | s in st.owned[c]
      ensures s in st.book.spies && CanRead(st.book, st.book.spies[s], st.net)
    {
      ClosedCanRead(st, st.book.spies[s]);
    }
  }

  lemma {:induction false} SendEachKeys(n: Net, to: seq<Client>, m: Message)
    ensures var n' := SendEach(n, to, m);
            n'.conn.Keys == n.conn.Keys && n'.closed == n.closed && n'.log == n.log
    decreases |to|
  {
    if to != [] {
      SendEachKeys(Send(n, to[0], m), to[1..], m);
    }
  }

  lemma RequestNetKeys(st: State, c: Client, m: Message)
    requires m.Request?
    ensures var n' := RequestNet(st, c, m);
            n'.conn.Keys == st.net.conn.Keys && n'.closed == st.net.closed && n'.log == st.net.log
  {
    match Target(st, m)
    case None =>
    case Some(s) => SendEachKeys(Send(st.net, s.client, m), SpiesOf(st.book, s), m);
  }

  lemma ReplyNetKeys(st: State, id: RequestId, answer: Answer)
    ensures var n' := ReplyNet(st, id, answer);
            n'.conn.Keys == st.net.conn.Keys && n'.closed == st.net.closed && n'.log == st.net.log
  {
    if id in st.table.pending {
      SendEachKeys(st.net, Contents(st.book, st.table.pending[id].spies), Reply(id, answer));
    }
  }

  /** Arrays never get shorter, so slices stay backed. */
  ghost predicate Grows(b: SpyBook, b': SpyBook) {
    && b.spies.Keys <= b'.spies.Keys
    && forall a :: a in b.store ==> a in b'.store && |b.store[a]| <= |b'.store[a]|
  }

  lemma {:induction false} RemoveSpiesGrows(b: SpyBook, list: seq<Service>, c: Client)
    requires BookOk(b) && forall s :: s in list ==> s in b.spies
    ensures Grows(b, RemoveSpies(b, list, c))
    decreases |list|
  {
    if list != [] {
      DropSpy(b, list[0], c);
      RemoveSpiesGrows(RemoveSpy(b, list[0], c), list[1..], c);
    }
  }

  lemma {:induction false} WithdrawCloses(n: Net, exact: Subscribers, glob: Subscribers, book: SpyBook,
          list: seq<Service>, known: set<Client>)
    requires n.closed <= known && StoreKnown(book, known)
    ensures Withdraw(n, exact, glob, book, list).closed <= known
    decreases |list|
  {
    if list != [] {
      var n1 := Tell(n, exact, glob, Lost(list[0]));
      WithdrawCloses(n1.(closed := n1.closed + set c | c in SpiesOf(book, list[0])), exact, glob, book, list[1..], known);
    }
  }

  lemma ConnectCloses(st: State, c: Client)
    requires Closed(st)
    ensures Closed(Connect(st, c))
  {
  }

  lemma RenameCloses(st: State, c: Client, name: string)
    requires Closed(st) && c in st.names
    ensures Closed(Rename(st, c, name))
  {
  }

  lemma PublishCloses(st: State, topic: string, payload: Payload)
    requires Closed(st)
    ensures Closed(DoPublish(st, topic, payload))
  {
  }

  lemma AddKnown(m: Subscribers, key: string, c: Client, known: set<Client>)
    requires SubscribersKnown(m, known) && c in known
    ensures SubscribersKnown(AddTo(m, key, c), known)
  {
  }

  lemma IndexesClose(st: State, subscribes: map<Client, seq<string>>, exact: Subscribers, glob: Subscribers, n: Net)
    requires Closed(st) && subscribes.Keys == st.names.Keys
    requires SubscribersKnown(exact, st.names.Keys) && SubscribersKnown(glob, st.names.Keys)
    requires n.conn.Keys == st.net.conn.Keys && n.closed == st.net.closed
    ensures Closed(st.(subscribes := subscribes, exact := exact, glob := glob, net := n))
  {
  }

  lemma SubscribeCloses(st: State, c: Client, p: string)
    requires Closed(st) && c in st.names
    ensures Closed(Subscribing(st, c, p))
  {
    if p !in Patterns(st, c) {
      var st' := Subscribing(st, c, p);
      AddKnown(st.exact, p, c, st.names.Keys);
      AddKnown(st.glob, p, c, st.names.Keys);
      IndexesClose(st, st'.subscribes, st'.exact, st'.glob, st'.net);
    }
  }

  lemma GrowsKeeps(services: Registry, lists: Lists, t: R.Table, b: SpyBook, b': SpyBook, known: set<Client>)
    requires Grows(b, b')
    ensures ServicesKnown(services, b) ==> ServicesKnown(services, b')
    ensures ListsKnown(lists, b) ==> ListsKnown(lists, b')
    ensures TableKnown(t, b, known) ==> TableKnown(t, b', known)
  {
  }

  lemma DetachedKnown(st: State, s: Service)
    requires Closed(st)
    ensures ListsKnown(Detached(st, s), st.book) && Detached(st, s).Keys == st.owned.Keys
  {
    match Lookup(st.services, s.name, s.ident)
    case None =>
    case Some(d) =>
      assert d in st.book.spies;
      assert forall x :: x in WithoutKey(Owned(st, d.client), s.name, s.ident) ==> x in Owned(st, d.client);
  }

  lemma EnrolOk(b: SpyBook, s: Service, none: array<Client>, known: set<Client>)
    requires BookOk(b) && StoreKnown(b, known) && OwnersKnown(b, known)
    requires s.client in known && s !in b.spies && none !in b.store
    ensures var b' := Enrol(b, s, none);
            Grows(b, b') && BookOk(b') && StoreKnown(b', known) && OwnersKnown(b', known)
  {
  }

  lemma AppendKnown(lists: Lists, b: SpyBook, c: Client, s: Service)
    requires ListsKnown(lists, b) && s in b.spies
    ensures ListsKnown(lists[c := Listed(lists, c) + [s]], b)
  {
  }

  lemma AnnounceKeys(st: State, s: Service)
    ensures Announce(st, s).conn.Keys == st.net.conn.Keys && Announce(st, s).closed == st.net.closed
  {
  }

  lemma StoreServicesKnown(services: Registry, s: Service, b: SpyBook)
    requires ServicesKnown(services, b) && s in b.spies
    ensures ServicesKnown(Store(services, s), b)
  {
  }

  /** A spy book that extends the old one and is as well formed. */
  ghost predicate Extends(b: SpyBook, b': SpyBook, known: set<Client>) {
    Grows(b, b') && BookOk(b') && StoreKnown(b', known) && OwnersKnown(b', known)
  }

  /** Extending the spy book and appending a service to one client's list of either kind. */
  lemma ExtendBook(st: State, owned: Lists, spying: Lists, b: SpyBook)
    requires Closed(st) && Extends(st.book, b, st.names.Keys)
    requires owned.Keys == spying.Keys == st.names.Keys && ListsKnown(owned, b) && ListsKnown(spying, b)
    ensures Closed(st.(owned := owned, spying := spying, book := b))
  {
    GrowsKeeps(st.services, owned, st.table, st.book, b, st.names.Keys);
  }

  lemma StoreCloses(st: State, s: Service, n: Net, started: bool, crashed: bool)
    requires Closed(st) && s in st.book.spies && n.conn.Keys == st.net.conn.Keys && n.closed == st.net.closed
    ensures Closed(st.(services := Store(st.services, s), started := started, crashed := crashed, net := n))
  {
    StoreServicesKnown(st.services, s, st.book);
  }

  lemma ListsGrow(lists: Lists, b: SpyBook, b': SpyBook)
    requires Grows(b, b') && ListsKnown(lists, b)
    ensures ListsKnown(lists, b')
  {
  }

  lemma JoinedKnown(st: State, s: Service, b: SpyBook)
    requires Closed(st) && Grows(st.book, b) && s in b.spies && s.client in st.names
    ensures ListsKnown(Joined(Detached(st, s), s), b) && Joined(Detached(st, s), s).Keys == st.names.Keys
  {
    DetachedKnown(st, s);
    ListsGrow(Detached(st, s), st.book, b);
    AppendKnown(Detached(st, s), b, s.client, s);
  }

  lemma RegisterLists(st: State, s: Service, none: array<Client>)
    requires Closed(st) && s.client in st.names && s !in st.book.spies && none !in st.book.store
    ensures Closed(st.(owned := Joined(Detached(st, s), s), book := Enrol(st.book, s, none)))
  {
    var b := Enrol(st.book, s, none);
    EnrolOk(st.book, s, none, st.names.Keys);
    JoinedKnown(st, s, b);
    ListsGrow(st.spying, st.book, b);
    ExtendBook(st, Joined(Detached(st, s), s), st.spying, b);
  }

  lemma RegisterCloses(st: State, s: Service, none: array<Client>)
    requires Closed(st) && s.client in st.names && s !in st.book.spies && none !in st.book.store
    ensures Closed(Registering(st, s, none))
  {
    RegisterLists(st, s, none);
    AnnounceKeys(st, s);
    StoreCloses(st.(owned := Joined(Detached(st, s), s), book := Enrol(st.book, s, none)), s, Announce(st, s),
                st.started || s.name == "cellaserv", st.crashed || Panics(st, s));
  }

  lemma AddSpyOk(b: SpyBook, c: Client, s: Service, room: array<Client>, spare: nat, known: set<Client>)
    requires Extends(b, b, known) && c in known && s in b.spies && room !in b.store
    ensures Extends(b, AddSpy(b, c, s, room, spare), known)
  {
    AppendSpy(b, c, s, room, spare);
    AddSpyStore(b, known, c, s, room, spare);
    AddSpyGrows(b, c, s, room, spare);
  }

  lemma SpyCloses(st: State, c: Client, s: Service, room: array<Client>, spare: nat)
    requires Closed(st) && c in st.names && s in st.book.spies && room !in st.book.store
    ensures Closed(Spy(st, c, s, room, spare))
  {
    var b := AddSpy(st.book, c, s, room, spare);
    AddSpyOk(st.book, c, s, room, spare, st.names.Keys);
    ExtendSpying(st, c, s, b);
  }

  lemma ExtendSpying(st: State, c: Client, s: Service, b: SpyBook)
    requires Closed(st) && Extends(st.book, b, st.names.Keys) && c in st.names && s in st.book.spies
    ensures Closed(st.(book := b, spying := st.spying[c := Listed(st.spying, c) + [s]]))
  {
    ListsGrow(st.owned, st.book, b);
    ListsGrow(st.spying, st.book, b);
    AppendKnown(st.spying, b, c, s);
    ExtendBook(st, st.owned, st.spying[c := Listed(st.spying, c) + [s]], b);
  }

  lemma ExpireKnown(t: R.Table, k: R.Timer, b: SpyBook, known: set<Client>)
    requires TableKnown(t, b, known) && k in t.armed
    ensures TableKnown(R.Expire(t, k), b, known)
  {
  }

  lemma AddSpyGrows(b: SpyBook, c: Client, s: Service, room: array<Client>, spare: nat)
    requires s in b.spies && room !in b.store
    ensures Grows(b, AddSpy(b, c, s, room, spare))
  {
  }

  lemma TrackKnown(t: R.Table, id: RequestId, c: Client, sl: Slice, b: SpyBook, known: set<Client>)
    requires TableKnown(t, b, known) && c in known && Backed(b, sl)
    ensures TableKnown(R.Track(t, id, c, sl), b, known)
  {
  }

  lemma TableCloses(st: State, t: R.Table, n: Net)
    requires Closed(st) && TableKnown(t, st.book, st.names.Keys)
    requires n.conn.Keys == st.net.conn.Keys && n.closed == st.net.closed
    ensures Closed(st.(table := t, net := n))
  {
  }

  lemma RequestCloses(st: State, c: Client, m: Message)
    requires Closed(st) && c in st.names && m.Request?
    ensures Closed(Requesting(st, c, m))
  {
    RequestNetKeys(st, c, m);
    if Target(st, m).Some? {
      TrackKnown(st.table, m.id, c, st.book.spies[Target(st, m).value], st.book, st.names.Keys);
    }
    TableCloses(st, RequestTable(st, c, m), RequestNet(st, c, m));
  }

  lemma ReplyCloses(st: State, id: RequestId, answer: Answer)
    requires Closed(st)
    ensures Closed(Replying(st, id, answer))
  {
    ReplyNetKeys(st, id, answer);
    TableCloses(st, R.Settle(st.table, id), ReplyNet(st, id, answer));
  }

  lemma FireCloses(st: State, k: R.Timer)
    requires Closed(st) && k in st.table.armed
    ensures Closed(Fire(st, k))
  {
    ExpireKnown(st.table, k, st.book, st.names.Keys);
    TableCloses(st, R.Expire(st.table, k), TimeoutNet(st, st.table.armed[k]));
  }

  lemma UnregisterAllKnown(services: Registry, list: seq<Service>, b: SpyBook)
    requires ServicesKnown(services, b)
    ensures ServicesKnown(UnregisterAll(services, list), b)
  {
    var services' := UnregisterAll(services, list);
    forall name, ident | name in services' && ident in services'[name]
      ensures services'[name][ident] in b.spies
    {
      UnregisterAllLookup(services, list, name, ident);
      assert Lookup(services', name, ident) == Some(services'[name][ident]);
    }
  }

  lemma DropKnown(m: Subscribers, c: Client, known: set<Client>)
    requires SubscribersKnown(m, known)
    ensures SubscribersKnown(DropFrom(m, c), known)
  {
    var m' := DropFrom(m, c);
    forall k | k in m'
      ensures forall d :: d in m'[k] ==> d in known
    {
      assert forall d :: d in m[k] ==> d in known;
    }
  }

  lemma FarewellCloses(st: State, c: Client, exactKeys: seq<string>, globKeys: seq<string>)
    requires st.net.closed <= st.names.Keys && StoreKnown(st.book, st.names.Keys)
    ensures var n := Farewell(st, c, exactKeys, globKeys);
            n.closed <= st.names.Keys && n.conn.Keys == st.net.conn.Keys
  {
    var n1 := Withdraw(st.net, st.exact, st.glob, st.book, Owned(st, c));
    var es := Dropped(st.exact, exactKeys, c) + Dropped(st.glob, globKeys, c);
    WithdrawLog(st.net, st.exact, st.glob, st.book, Owned(st, c));
    WithdrawCloses(st.net, st.exact, st.glob, st.book, Owned(st, c), st.names.Keys);
    TellAllLog(n1, DropFrom(st.exact, c), DropFrom(st.glob, c), es);
  }

  lemma DepartCloses(st: State, c: Client, exactKeys: seq<string>, globKeys: seq<string>)
    requires Closed(st) && c in st.names
    ensures Closed(Depart(st, c, exactKeys, globKeys))
  {
    var list := Spying(st, c);
    var b' := RemoveSpies(st.book, list, c);
    DropSpies(st.book, list, c);
    DroppedStore(st.book, list, c, st.names.Keys);
    RemoveSpiesGrows(st.book, list, c);
    UnregisterAllKnown(st.services, Owned(st, c), st.book);
    GrowsKeeps(UnregisterAll(st.services, Owned(st, c)), st.owned, st.table, st.book, b', st.names.Keys);
    GrowsKeeps(st.services, st.spying, st.table, st.book, b', st.names.Keys);
    DropKnown(st.exact, c, st.names.Keys);
    DropKnown(st.glob, c, st.names.Keys);
    FarewellCloses(st, c, exactKeys, globKeys);
  }
}
