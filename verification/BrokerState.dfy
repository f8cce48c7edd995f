/**
 * The broker's shared state as a value, and its handlers as functions on that
 * value, one atomic step each. The class `Broker` is proved to compute these
 * functions; the properties of whole runs are proved about them.
 *
 * Clients, services and backing arrays are object references: here they only
 * serve as identities.
 */
module BrokerState {
  import opened Seqs
  import opened Objects
  import opened Glob
  import opened Options
  import R = Requests

  type Subscribers = map<string, seq<Client>>
  type Registry = map<string, map<string, Service>>
  type Lists = map<Client, seq<Service>>

  /** The spies of every service object, and the arrays behind those slices. */
  datatype SpyBook = SpyBook(
    spies: map<Service, Slice>,
    store: map<array<Client>, seq<Client>>,
    lineage: map<array<Client>, Service>)     // the service each array was made for

  /**
   * What the broker has written to each connection, the connections it has
   * closed, and the events it has published, oldest first.
   */
  datatype Net = Net(conn: map<Client, seq<Message>>, closed: set<Client>, log: seq<Event>)

  datatype State = State(
    // Broker
    clients: map<string, Client>,
    services: Registry,
    exact: Subscribers,
    glob: Subscribers,
    table: R.Table,
    started: bool,                            // the `startedWithCellaserv` channel is closed
    crashed: bool,                            // the process has panicked
    // fields of client objects
    names: map<Client, string>,
    owned: map<Client, seq<Service>>,
    subscribes: map<Client, seq<string>>,
    spying: map<Client, seq<Service>>,
    // fields of service objects
    book: SpyBook,
    net: Net)

  const INIT := State(map[], map[], map[], map[], R.EMPTY_TABLE, false, false,
                      map[], map[], map[], map[], SpyBook(map[], map[], map[]), Net(map[], {}, []))

  predicate Present(clients: map<string, Client>, c: Client) {
    c.id in clients && clients[c.id] == c
  }

  predicate Connected(st: State, c: Client) { Present(st.clients, c) }

  function Listed(lists: Lists, c: Client): seq<Service> {
    if c in lists then lists[c] else []
  }

  function Owned(st: State, c: Client): seq<Service> { Listed(st.owned, c) }

  function Spying(st: State, c: Client): seq<Service> { Listed(st.spying, c) }

  function Patterns(st: State, c: Client): seq<string> {
    if c in st.subscribes then st.subscribes[c] else []
  }

  function NameOf(st: State, c: Client): string {
    if c in st.names then st.names[c] else ""
  }

  function Written(st: State, c: Client): seq<Message> {
    if c in st.net.conn then st.net.conn[c] else []
  }

  function Clients(m: Subscribers, key: string): seq<Client> {
    if key in m then m[key] else []
  }

  function Idents(services: Registry, name: string): map<string, Service> {
    if name in services then services[name] else map[]
  }

  /** `services[name][ident]` */
  function Lookup(services: Registry, name: string, ident: string): Option<Service> {
    if name in services && ident in services[name] then Some(services[name][ident]) else None
  }

  predicate Registered(st: State, s: Service) {
    Lookup(st.services, s.name, s.ident) == Some(s)
  }

  // ------------------------------------------------------------------ sending

  /** A write to a connection the broker has closed fails and is only logged. */
  function Send(n: Net, c: Client, m: Message): Net {
    if c in n.conn && c !in n.closed then n.(conn := n.conn[c := n.conn[c] + [m]]) else n
  }

  function SendEach(n: Net, to: seq<Client>, m: Message): Net
    decreases |to|
  {
    if to == [] then n else SendEach(Send(n, to[0], m), to[1..], m)
  }

  /** The set of clients a publish goes to: glob subscribers that match, and exact ones. */
  function Recipients(exact: Subscribers, glob: Subscribers, topic: string): set<Client> {
    (set p, c | p in glob && Match(p, topic) && c in glob[p] :: c) + (set c | c in Clients(exact, topic))
  }

  function Deliver(n: Net, to: set<Client>, m: Message): Net {
    n.(conn := map c | c in n.conn :: if c in to && c !in n.closed then n.conn[c] + [m] else n.conn[c])
  }

  function DoPublish(st: State, topic: string, payload: Payload): State {
    st.(net := Deliver(st.net, Recipients(st.exact, st.glob, topic), Publish(topic, payload)))
  }

  /** Publish one of the broker's own events to the subscribers of the moment. */
  function Tell(n: Net, exact: Subscribers, glob: Subscribers, e: Event): Net {
    Deliver(n.(log := n.log + [e]), Recipients(exact, glob, Topic(e)), Publish(Topic(e), Json(e)))
  }

  function TellAll(n: Net, exact: Subscribers, glob: Subscribers, es: seq<Event>): Net
    decreases |es|
  {
    if es == [] then n else TellAll(Tell(n, exact, glob, es[0]), exact, glob, es[1..])
  }

  function Emit(st: State, e: Event): State {
    st.(net := Tell(st.net, st.exact, st.glob, e))
  }

  // ------------------------------------------------------------------ clients

  function Admit(st: State, c: Client): State {
    st.(clients := st.clients[c.id := c],
        names := st.names[c := ""],
        owned := st.owned[c := []],
        subscribes := st.subscribes[c := []],
        spying := st.spying[c := []],
        net := st.net.(conn := st.net.conn[c := []]))
  }

  function Connect(st: State, c: Client): State {
    Emit(Admit(st, c), NewClient(c.id, ""))
  }

  function Rename(st: State, c: Client, name: string): State {
    Emit(st.(names := st.names[c := name]), ClientName(c.id, name))
  }

  // ----------------------------------------------------------------- registry

  function Lost(s: Service): Event { LostService(s.client.id, s.name, s.ident) }

  function Keyed(s: Service): (string, string) { (s.name, s.ident) }

  /** Index of the first service of the list registered under this key. */
  function KeyIndex(list: seq<Service>, name: string, ident: string): (i: nat)
    ensures i <= |list|
    ensures i < |list| ==> Keyed(list[i]) == (name, ident)
    ensures forall j :: 0 <= j < i ==> Keyed(list[j]) != (name, ident)
  {
    if list == [] || Keyed(list[0]) == (name, ident) then 0 else 1 + KeyIndex(list[1..], name, ident)
  }

  function WithoutKey(list: seq<Service>, name: string, ident: string): seq<Service> {
    var i := KeyIndex(list, name, ident);
    if i == |list| then list else SwapRemove(list, i)
  }

  // A registration, field by field; `d` is the service registered under the key before.

  /** The clients' lists once that service is detached from its owner. */
  function Vacated(owned: Lists, d: Option<Service>, name: string, ident: string): Lists {
    match d
    case None => owned
    case Some(replaced) => owned[replaced.client := WithoutKey(Listed(owned, replaced.client), name, ident)]
  }

  function Joined(owned: Lists, s: Service): Lists {
    owned[s.client := Listed(owned, s.client) + [s]]
  }

  /** The loss of the replaced service is told of. */
  function Superseded(n: Net, exact: Subscribers, glob: Subscribers, d: Option<Service>): Net {
    match d
    case None => n
    case Some(replaced) => Tell(n, exact, glob, Lost(replaced))
  }

  /** The replaced service is told of first; a process that panics does so before it tells of the new one. */
  function Entered(n: Net, exact: Subscribers, glob: Subscribers, d: Option<Service>, s: Service, panics: bool): Net {
    var n1 := Superseded(n, exact, glob, d);
    if panics then n1 else Tell(n1, exact, glob, NewService(s.client.id, s.name, s.ident))
  }

  /** Closing the `startedWithCellaserv` channel a second time panics. */
  predicate Panics(st: State, s: Service) { s.name == "cellaserv" && st.started }

  /** The lists and the network of a registration. */
  function Detached(st: State, s: Service): Lists {
    Vacated(st.owned, Lookup(st.services, s.name, s.ident), s.name, s.ident)
  }

  function Announce(st: State, s: Service): Net {
    Entered(st.net, st.exact, st.glob, Lookup(st.services, s.name, s.ident), s, Panics(st, s))
  }

  function Store(services: Registry, s: Service): Registry {
    services[s.name := Idents(services, s.name)[s.ident := s]]
  }

  /** `s` is the new service object and `none` the empty array behind its spies. */
  function Registering(st: State, s: Service, none: array<Client>): State {
    st.(services := Store(st.services, s),
        owned := Joined(Detached(st, s), s),
        book := Enrol(st.book, s, none),
        started := st.started || s.name == "cellaserv",
        crashed := st.crashed || Panics(st, s),
        net := Announce(st, s))
  }

  /** `delete(services[s.Name], s.Identification)` */
  function Unregister(services: Registry, s: Service): Registry {
    if s.name in services then services[s.name := services[s.name] - {s.ident}] else services
  }

  function UnregisterAll(services: Registry, list: seq<Service>): Registry
    decreases |list|
  {
    if list == [] then services else UnregisterAll(Unregister(services, list[0]), list[1..])
  }

  /** Tell of a departing client's services, closing the connections of their spies. */
  function Withdraw(n: Net, exact: Subscribers, glob: Subscribers, book: SpyBook, list: seq<Service>): Net
    decreases |list|
  {
    if list == [] then n
    else
      var n1 := Tell(n, exact, glob, Lost(list[0]));
      Withdraw(n1.(closed := n1.closed + set c | c in SpiesOf(book, list[0])), exact, glob, book, list[1..])
  }

  // ------------------------------------------------------------ subscriptions

  function AddTo(m: Subscribers, key: string, c: Client): Subscribers {
    m[key := Clients(m, key) + [c]]
  }

  function Subscribing(st: State, c: Client, p: string): State {
    if p in Patterns(st, c) then st
    else
      var exact := if HasStar(p) then st.exact else AddTo(st.exact, p, c);
      var glob := if HasStar(p) then AddTo(st.glob, p, c) else st.glob;
      st.(subscribes := st.subscribes[c := Patterns(st, c) + [p]],
          exact := exact,
          glob := glob,
          net := Tell(st.net, exact, glob, NewSubscriber(p, c.id)))
  }

  /** The map once the removal loop has run over all its keys. */
  function DropFrom(m: Subscribers, c: Client): Subscribers {
    map k | k in m && !(c in m[k] && |m[k]| == 1) :: if c in m[k] then OverwriteMatches(m[k], c) else m[k]
  }

  /** What the loop reports, visiting the keys in the order `keys`: one event per match. */
  function Dropped(m: Subscribers, keys: seq<string>, c: Client): seq<Event> {
    if keys == [] then []
    else seq(multiset(Clients(m, keys[0]))[c], _ => LostSubscriber(keys[0], c.id)) + Dropped(m, keys[1..], c)
  }

  // -------------------------------------------------------------------- spies

  predicate Backed(b: SpyBook, sl: Slice) {
    sl.arr in b.store && sl.len <= |b.store[sl.arr]|
  }

  function Contents(b: SpyBook, sl: Slice): seq<Client> {
    if Backed(b, sl) then b.store[sl.arr][..sl.len] else []
  }

  function SpiesOf(b: SpyBook, s: Service): seq<Client> {
    if s in b.spies then Contents(b, b.spies[s]) else []
  }

  /** A new service has no spies; `none` is the empty array behind its slice. */
  function Enrol(b: SpyBook, s: Service, none: array<Client>): SpyBook {
    SpyBook(b.spies[s := Slice(none, 0)], b.store[none := []], b.lineage[none := s])
  }

  /**
   * `append` to the spies of `s`: in place when the array has room, else into
   * the new array `room` with `spare` more places than needed.
   */
  function AddSpy(b: SpyBook, c: Client, s: Service, room: array<Client>, spare: nat): SpyBook {
    if s !in b.spies || !Backed(b, b.spies[s]) then b  // cannot happen: see Spies.Inv
    else
      var Slice(arr, len) := b.spies[s];
      if len < |b.store[arr]| then
        b.(store := b.store[arr := b.store[arr][len := c]], spies := b.spies[s := Slice(arr, len + 1)])
      else
        SpyBook(b.spies[s := Slice(room, len + 1)],
                b.store[room := b.store[arr][..len] + seq(1 + spare, _ => c)],
                b.lineage[room := s])
  }

  function Spy(st: State, c: Client, s: Service, room: array<Client>, spare: nat): State {
    st.(book := AddSpy(st.book, c, s, room, spare),
        spying := st.spying[c := Spying(st, c) + [s]])
  }

  /** Swap-remove the first occurrence of `c` from the spies of `s`, in place. */
  function RemoveSpy(b: SpyBook, s: Service, c: Client): SpyBook {
    var i := IndexOf(SpiesOf(b, s), c);
    if i == |SpiesOf(b, s)| then b
    else
      var Slice(arr, len) := b.spies[s];
      b.(store := b.store[arr := b.store[arr][i := b.store[arr][len - 1]]],
         spies := b.spies[s := Slice(arr, len - 1)])
  }

  function RemoveSpies(b: SpyBook, list: seq<Service>, c: Client): SpyBook
    decreases |list|
  {
    if list == [] then b else RemoveSpies(RemoveSpy(b, list[0], c), list[1..], c)
  }

  // ---------------------------------------------------------------- departure

  /** The publishes of a departure: services first, then subscriptions, then the client. */
  function Farewell(st: State, c: Client, exactKeys: seq<string>, globKeys: seq<string>): Net {
    var n1 := Withdraw(st.net, st.exact, st.glob, st.book, Owned(st, c));
    var exact, glob := DropFrom(st.exact, c), DropFrom(st.glob, c);
    var n2 := TellAll(n1, exact, glob, Dropped(st.exact, exactKeys, c) + Dropped(st.glob, globKeys, c));
    Tell(n2, exact, glob, LostClient(c.id, NameOf(st, c)))
  }

  /**
   * Services leave the registry by key and spies are removed one occurrence per
   * entry of the client's list; the keys of the subscriber maps are visited in
   * the orders given.
   */
  function Depart(st: State, c: Client, exactKeys: seq<string>, globKeys: seq<string>): State {
    st.(clients := st.clients - {c.id},
        services := UnregisterAll(st.services, Owned(st, c)),
        exact := DropFrom(st.exact, c),
        glob := DropFrom(st.glob, c),
        book := RemoveSpies(st.book, Spying(st, c), c),
        net := Farewell(st, c, exactKeys, globKeys))
  }

  // ----------------------------------------------------------------- requests

  /** The service a request goes to, if it is accepted. */
  function Target(st: State, m: Message): Option<Service>
    requires m.Request?
  {
    match Lookup(st.services, m.name, m.ident)
    case None => None
    case Some(s) => if s in st.book.spies then Some(s) else None  // registered services are known
  }

  /** The error that answers a request with no target. */
  function Refusal(services: Registry, name: string): ErrorKind {
    if name !in services || services[name] == map[] then NoSuchService else InvalidIdentification
  }

  /** An accepted request goes to its service, then to each spy; any other is answered at once. */
  function RequestNet(st: State, c: Client, m: Message): Net
    requires m.Request?
  {
    match Target(st, m)
    case None => Send(st.net, c, Reply(m.id, Error(Refusal(st.services, m.name))))
    case Some(s) => SendEach(Send(st.net, s.client, m), SpiesOf(st.book, s), m)
  }

  function RequestTable(st: State, c: Client, m: Message): R.Table
    requires m.Request?
  {
    match Target(st, m)
    case None => st.table
    case Some(s) => R.Track(st.table, m.id, c, st.book.spies[s])
  }

  function Requesting(st: State, c: Client, m: Message): State
    requires m.Request?
  {
    st.(table := RequestTable(st, c, m), net := RequestNet(st, c, m))
  }

  /** A reply goes to each spy of the snapshot, then to the sender of the request. */
  function ReplyNet(st: State, id: RequestId, answer: Answer): Net {
    if id !in st.table.pending then st.net
    else
      var e := st.table.pending[id];
      Send(SendEach(st.net, Contents(st.book, e.spies), Reply(id, answer)), e.sender, Reply(id, answer))
  }

  function Replying(st: State, id: RequestId, answer: Answer): State {
    st.(table := R.Settle(st.table, id), net := ReplyNet(st, id, answer))
  }

  /** A timeout is answered to the client that the timer's closure captured. */
  function TimeoutNet(st: State, a: R.Alarm): Net {
    if a.id in st.table.pending then Send(st.net, a.client, Reply(a.id, Error(Timeout))) else st.net
  }

  function Fire(st: State, k: R.Timer): State
    requires k in st.table.armed
  {
    st.(table := R.Expire(st.table, k), net := TimeoutNet(st, st.table.armed[k]))
  }

  // --------------------------------------------------------------------- runs

  datatype Step =
    | Connects(c: Client)
    | Renames(c: Client, name: string)
    | Registers(s: Service, none: array<Client>)
    | Subscribes(c: Client, pattern: string)
    | Publishes(c: Client, topic: string, payload: Payload)
    | SpiesOn(c: Client, s: Service, room: array<Client>, spare: nat)
    | Requests(c: Client, m: Message)
    | Replies(c: Client, id: RequestId, answer: Answer)
    | Fires(timer: R.Timer)
    | Departs(c: Client, exactKeys: seq<string>, globKeys: seq<string>)

  ghost predicate Enumerates(keys: seq<string>, m: Subscribers) {
    NoDup(keys) && forall k :: k in keys <==> k in m
  }

  /**
   * When the source can take a step. A client whose connection is being served
   * is connected; renames and registrations through the internal service act on
   * the sender of a tracked request, which may be gone by then. Objects that a
   * step creates are new, and a new connection's address is not in use.
   */
  ghost predicate Enabled(st: State, step: Step) {
    !st.crashed &&
    match step
    case Connects(c) => c !in st.names && c.id !in st.clients
    case Renames(c, _) => c in st.names
    case Registers(s, none) => s.client in st.names && s !in st.book.spies && none !in st.book.store
    case SpiesOn(c, s, room, _) => Connected(st, c) && Registered(st, s) && room !in st.book.store
    case Requests(c, m) => Connected(st, c) && m.Request?
    case Fires(k) => k in st.table.armed
    case Departs(c, exactKeys, globKeys) => Connected(st, c) && Enumerates(exactKeys, st.exact) && Enumerates(globKeys, st.glob)
    case _ => Connected(st, step.c)
  }

  /** The step that serves a message. */
  predicate Serves(step: Step, c: Client, m: Message) {
    match m
    case Register(name, ident) => step.Registers? && step.s.client == c && step.s.name == name && step.s.ident == ident
    case Request(_, _, _, _, _) => step == Requests(c, m)
    case Reply(id, answer) => step == Replies(c, id, answer)
    case Subscribe(pattern) => step == Subscribes(c, pattern)
    case Publish(topic, payload) => step == Publishes(c, topic, payload)
  }

  ghost function Apply(st: State, step: Step): State
    requires Enabled(st, step)
  {
    match step
    case Connects(c) => Connect(st, c)
    case Renames(c, name) => Rename(st, c, name)
    case Registers(s, none) => Registering(st, s, none)
    case Subscribes(c, p) => Subscribing(st, c, p)
    case Publishes(_, topic, payload) => DoPublish(st, topic, payload)
    case SpiesOn(c, s, room, spare) => Spy(st, c, s, room, spare)
    case Requests(c, m) => Requesting(st, c, m)
    case Replies(_, id, answer) => Replying(st, id, answer)
    case Fires(k) => Fire(st, k)
    case Departs(c, exactKeys, globKeys) => Depart(st, c, exactKeys, globKeys)
  }

  ghost predicate Legal(st: State, steps: seq<Step>)
    decreases |steps|
  {
    steps == [] || (Enabled(st, steps[0]) && Legal(Apply(st, steps[0]), steps[1..]))
  }

  ghost function Exec(st: State, steps: seq<Step>): State
    requires Legal(st, steps)
    decreases |steps|
  {
    if steps == [] then st else Exec(Apply(st, steps[0]), steps[1..])
  }

  // The internal service acts on the senders of tracked requests, and these may
  // have left. Two conditions on a run that some results, and no others, need.

  /** Whoever is renamed is connected at the time. */
  ghost predicate RenamesOrderly(st: State, steps: seq<Step>)
    requires Legal(st, steps)
    decreases |steps|
  {
    steps == [] ||
    ((steps[0].Renames? ==> Connected(st, steps[0].c)) && RenamesOrderly(Apply(st, steps[0]), steps[1..]))
  }

  /** Whoever a service is registered for is connected at the time. */
  ghost predicate RegistrationsOrderly(st: State, steps: seq<Step>)
    requires Legal(st, steps)
    decreases |steps|
  {
    steps == [] ||
    ((steps[0].Registers? ==> Connected(st, steps[0].s.client)) && RegistrationsOrderly(Apply(st, steps[0]), steps[1..]))
  }
}
