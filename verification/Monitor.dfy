/**
 * A client that has subscribed to the broker's own events: what is written to
 * its connection lets it follow the listings through any run.
 */
module Monitor {
  import opened Seqs
  import opened Objects
  import opened Glob
  import opened BrokerState
  import opened Effects
  import opened Listings
  import Subscriptions
  import Memory
  import Runs
  import R = Requests

  const KINDS: set<string> := {
    "client-name", "lost-client", "lost-service", "lost-subscriber", "new-client", "new-service", "new-subscriber" }

  /** The names the broker publishes its own events under. */
  const LOG_TOPICS: set<string> := set kind | kind in KINDS :: LOG_PREFIX + kind

  /** The broker event that a message carries, if it does. */
  function EventOf(m: Message): seq<Event> {
    match m
    case Publish(topic, Json(e)) => if topic in LOG_TOPICS then [e] else []
    case _ => []
  }

  /** The broker events among the messages written to a connection. */
  function EventsIn(ms: seq<Message>): seq<Event> {
    if ms == [] then [] else EventOf(ms[0]) + EventsIn(ms[1..])
  }

  lemma {:induction false} EventsInConcat(ms: seq<Message>, ns: seq<Message>)
    ensures EventsIn(ms + ns) == EventsIn(ms) + EventsIn(ns)
  {
    if ms == [] {
      assert ms + ns == ns;
    } else {
      EventsInConcat(ms[1..], ns);
      assert (ms + ns)[1..] == ms[1..] + ns;
      ConcatAssoc(EventOf(ms[0]), EventsIn(ms[1..]), EventsIn(ns));
    }
  }

  /** `m` hears every broker event published with these indexes. */
  ghost predicate Hears(exact: Subscribers, glob: Subscribers, m: Client) {
    forall topic :: topic in LOG_TOPICS ==> m in Recipients(exact, glob, topic)
  }

  /** The client's subscriptions cover every topic of the broker's events. */
  ghost predicate Covers(patterns: seq<string>) {
    forall topic :: topic in LOG_TOPICS ==> exists p :: p in patterns && IndexMatch(p, topic)
  }

  lemma KindsAreFlat(kind: string)
    requires kind in KINDS
    ensures '/' !in kind
  {
  }

  /** One subscription to `log.cellaserv.*` is enough. */
  lemma LogStarCovers(patterns: seq<string>)
    requires LOG_PREFIX + "*" in patterns
    ensures Covers(patterns)
  {
    forall topic | topic in LOG_TOPICS
      ensures IndexMatch(LOG_PREFIX + "*", topic)
    {
      var kind :| kind in KINDS && topic == LOG_PREFIX + kind;
      KindsAreFlat(kind);
      PrefixStar(LOG_PREFIX, kind);
      assert (LOG_PREFIX + "*")[|LOG_PREFIX|] == '*';
    }
  }

  /** Over the step from `n` to `n'`, `m` was written exactly the events that were published. */
  ghost predicate Heard(n: Net, n': Net, m: Client, es: seq<Event>) {
    && m in n.conn && m in n'.conn
    && n.conn[m] <= n'.conn[m]
    && EventsIn(n'.conn[m][|n.conn[m]|..]) == es
  }

  lemma HeardTwice(n: Net, n1: Net, n2: Net, m: Client, es: seq<Event>, fs: seq<Event>)
    requires Heard(n, n1, m, es) && Heard(n1, n2, m, fs)
    ensures Heard(n, n2, m, es + fs)
  {
    var a, b := n1.conn[m][|n.conn[m]|..], n2.conn[m][|n1.conn[m]|..];
    assert n2.conn[m][|n.conn[m]|..] == a + b;
    EventsInConcat(a, b);
  }

  lemma HeardMore(n: Net, n': Net, m: Client, ms: seq<Message>)
    requires m in n.conn && m in n'.conn && n'.conn[m] == n.conn[m] + ms
    ensures Heard(n, n', m, EventsIn(ms))
  {
    assert n'.conn[m][|n.conn[m]|..] == ms;
  }

  lemma TellHeard(n: Net, exact: Subscribers, glob: Subscribers, e: Event, m: Client)
    requires m in n.conn && m !in n.closed && Hears(exact, glob, m)
    ensures Heard(n, Tell(n, exact, glob, e), m, [e])
  {
    HeardMore(n, Tell(n, exact, glob, e), m, [Publish(Topic(e), Json(e))]);
    assert [Publish(Topic(e), Json(e))][1..] == [];
  }

  lemma NothingHeard(n: Net, n': Net, m: Client)
    requires m in n.conn && m in n'.conn && n'.conn[m] == n.conn[m]
    ensures Heard(n, n', m, [])
  {
    assert n.conn[m] + [] == n.conn[m];
    HeardMore(n, n', m, []);
  }

  lemma {:induction false} TellAllHeard(n: Net, exact: Subscribers, glob: Subscribers, es: seq<Event>, m: Client)
    requires m in n.conn && m !in n.closed && Hears(exact, glob, m)
    ensures Heard(n, TellAll(n, exact, glob, es), m, es)
    decreases |es|
  {
    if es == [] {
      NothingHeard(n, n, m);
    } else {
      var n1 := Tell(n, exact, glob, es[0]);
      TellHeard(n, exact, glob, es[0], m);
      TellAllHeard(n1, exact, glob, es[1..], m);
      HeardTwice(n, n1, TellAll(n, exact, glob, es), m, [es[0]], es[1..]);
      assert [es[0]] + es[1..] == es;
    }
  }

  lemma {:induction false} WithdrawHeard(n: Net, exact: Subscribers, glob: Subscribers, book: SpyBook,
          list: seq<Service>, m: Client)
    requires m in n.conn && Hears(exact, glob, m)
    requires m !in Withdraw(n, exact, glob, book, list).closed
    ensures Heard(n, Withdraw(n, exact, glob, book, list), m, LostAll(list))
    decreases |list|
  {
    WithdrawLog(n, exact, glob, book, list);
    if list == [] {
      NothingHeard(n, n, m);
    } else {
      var n1 := Tell(n, exact, glob, Lost(list[0]));
      var n2 := n1.(closed := n1.closed + set c | c in SpiesOf(book, list[0]));
      TellHeard(n, exact, glob, Lost(list[0]), m);
      WithdrawLog(n2, exact, glob, book, list[1..]);
      WithdrawHeard(n2, exact, glob, book, list[1..], m);
      HeardThenClosed(n, n1, n2, Withdraw(n, exact, glob, book, list), m, Lost(list[0]), LostAll(list[1..]));
      LostAllHead(list);
    }
  }

  lemma HeardThenClosed(n: Net, n1: Net, n2: Net, n3: Net, m: Client, e: Event, es: seq<Event>)
    requires Heard(n, n1, m, [e]) && n2 == n1.(closed := n2.closed) && Heard(n2, n3, m, es)
    ensures Heard(n, n3, m, [e] + es)
  {
    HeardTwice(n, n1, n3, m, [e], es);
  }

  // Requests and replies are not events.

  lemma SendHeard(n: Net, c: Client, msg: Message, m: Client)
    requires m in n.conn && !msg.Publish?
    ensures Heard(n, Send(n, c, msg), m, [])
  {
    if c == m && c !in n.closed {
      HeardMore(n, Send(n, c, msg), m, [msg]);
      assert [msg][1..] == [];
    } else {
      NothingHeard(n, Send(n, c, msg), m);
    }
  }

  lemma {:induction false} SendEachHeard(n: Net, to: seq<Client>, msg: Message, m: Client)
    requires m in n.conn && !msg.Publish?
    ensures Heard(n, SendEach(n, to, msg), m, [])
    decreases |to|
  {
    if to == [] {
      NothingHeard(n, n, m);
    } else {
      SendHeard(n, to[0], msg, m);
      SendEachHeard(Send(n, to[0], msg), to[1..], msg, m);
      HeardTwice(n, Send(n, to[0], msg), SendEach(n, to, msg), m, [], []);
    }
  }

  // ------------------------------------------------------------- whole runs

  /** `m` is connected and subscribed to all of the broker's events. */
  ghost predicate Ready(st: State, m: Client) {
    Connected(st, m) && m in st.net.conn && m in st.names && Covers(Patterns(st, m))
  }

  lemma ReadyHears(st: State, m: Client)
    requires Subscriptions.Inv(st) && Ready(st, m)
    ensures Hears(st.exact, st.glob, m)
  {
    forall topic | topic in LOG_TOPICS
      ensures m in Recipients(st.exact, st.glob, topic)
    {
      Subscriptions.RecipientsAre(st, topic, m);
    }
  }

  /** The step leaves `m` connected, and is no publish that passes for one of the broker's events. */
  ghost predicate Fair(step: Step, m: Client) {
    && (step.Departs? ==> step.c != m)
    && (step.Publishes? ==> step.topic !in LOG_TOPICS)
  }

  lemma CoversMore(ps: seq<string>, qs: seq<string>)
    requires Covers(ps) && forall p :: p in ps ==> p in qs
    ensures Covers(qs)
  {
  }

  /** Connections and lists of patterns after a step. */
  lemma ListsStep(st: State, step: Step)
    requires Enabled(st, step)
    ensures Apply(st, step).clients ==
            match step
            case Connects(c) => st.clients[c.id := c]
            case Departs(c, _, _) => st.clients - {c.id}
            case _ => st.clients
    ensures Apply(st, step).subscribes ==
            match step
            case Connects(c) => st.subscribes[c := []]
            case Subscribes(c, p) => if p in Patterns(st, c) then st.subscribes else st.subscribes[c := Patterns(st, c) + [p]]
            case _ => st.subscribes
    ensures st.names.Keys <= Apply(st, step).names.Keys
  {
    match step
    case Subscribes(_, _) =>
    case SpiesOn(_, _, _, _) =>
    case _ =>
  }

  lemma PatternsGrow(st: State, step: Step, m: Client)
    requires Enabled(st, step) && m in st.names && (step.Departs? ==> step.c != m)
    requires Connected(st, m) && forall id :: id in st.clients ==> st.clients[id].id == id
    ensures Connected(Apply(st, step), m) && m in Apply(st, step).names
    ensures forall p :: p in Patterns(st, m) ==> p in Patterns(Apply(st, step), m)
  {
    ListsStep(st, step);
    match step
    case Connects(c) => assert c.id != m.id;
    case Departs(c, _, _) => assert c.id != m.id;
    case _ =>
  }

  lemma StaysReady(st: State, step: Step, m: Client)
    requires Ready(st, m) && Enabled(st, step) && (step.Departs? ==> step.c != m)
    requires forall id :: id in st.clients ==> st.clients[id].id == id
    requires m in Apply(st, step).net.conn
    ensures Ready(Apply(st, step), m)
  {
    PatternsGrow(st, step, m);
    CoversMore(Patterns(st, m), Patterns(Apply(st, step), m));
  }

  lemma DepartHeard(st: State, c: Client, exactKeys: seq<string>, globKeys: seq<string>, m: Client)
    requires m in st.net.conn && Hears(st.exact, st.glob, m) && Hears(DropFrom(st.exact, c), DropFrom(st.glob, c), m)
    requires m !in Farewell(st, c, exactKeys, globKeys).closed
    ensures Heard(st.net, Farewell(st, c, exactKeys, globKeys), m, DepartLog(st, c, exactKeys, globKeys))
  {
    var exact, glob := DropFrom(st.exact, c), DropFrom(st.glob, c);
    var es := Dropped(st.exact, exactKeys, c) + Dropped(st.glob, globKeys, c);
    var n1 := Withdraw(st.net, st.exact, st.glob, st.book, Owned(st, c));
    var n2 := TellAll(n1, exact, glob, es);
    var last := LostClient(c.id, NameOf(st, c));
    TellAllLog(n1, exact, glob, es);
    WithdrawLog(st.net, st.exact, st.glob, st.book, Owned(st, c));
    WithdrawHeard(st.net, st.exact, st.glob, st.book, Owned(st, c), m);
    TellAllHeard(n1, exact, glob, es, m);
    TellHeard(n2, exact, glob, last, m);
    HeardTwice(st.net, n1, n2, m, LostAll(Owned(st, c)), es);
    HeardTwice(st.net, n2, Tell(n2, exact, glob, last), m, LostAll(Owned(st, c)) + es, [last]);
  }

  lemma AnnounceHeard(st: State, s: Service, m: Client)
    requires m in st.net.conn && m !in st.net.closed && Hears(st.exact, st.glob, m)
    ensures Heard(st.net, Announce(st, s), m, Replaced(st, s) + Announced(st, s))
  {
    var n1 := match Lookup(st.services, s.name, s.ident)
              case None => st.net
              case Some(d) => Tell(st.net, st.exact, st.glob, Lost(d));
    match Lookup(st.services, s.name, s.ident) {
      case None => NothingHeard(st.net, n1, m);
      case Some(d) => TellHeard(st.net, st.exact, st.glob, Lost(d), m);
    }
    if Panics(st, s) {
      NothingHeard(n1, Announce(st, s), m);
    } else {
      TellHeard(n1, st.exact, st.glob, NewService(s.client.id, s.name, s.ident), m);
    }
    HeardTwice(st.net, n1, Announce(st, s), m, Replaced(st, s), Announced(st, s));
  }

  lemma PublishHeard(st: State, topic: string, payload: Payload, m: Client)
    requires m in st.net.conn && topic !in LOG_TOPICS
    ensures Heard(st.net, DoPublish(st, topic, payload).net, m, [])
  {
    if m in Recipients(st.exact, st.glob, topic) && m !in st.net.closed {
      HeardMore(st.net, DoPublish(st, topic, payload).net, m, [Publish(topic, payload)]);
      assert [Publish(topic, payload)][1..] == [];
    } else {
      NothingHeard(st.net, DoPublish(st, topic, payload).net, m);
    }
  }

  lemma RequestHeard(st: State, c: Client, msg: Message, m: Client)
    requires msg.Request? && m in st.net.conn
    ensures Heard(st.net, RequestNet(st, c, msg), m, [])
  {
    match Target(st, msg)
    case None => SendHeard(st.net, c, Reply(msg.id, Error(Refusal(st.services, msg.name))), m);
    case Some(s) =>
      var n1 := Send(st.net, s.client, msg);
      SendHeard(st.net, s.client, msg, m);
      SendEachHeard(n1, SpiesOf(st.book, s), msg, m);
      HeardTwice(st.net, n1, RequestNet(st, c, msg), m, [], []);
  }

  lemma ReplyHeard(st: State, id: RequestId, answer: Answer, m: Client)
    requires m in st.net.conn
    ensures Heard(st.net, ReplyNet(st, id, answer), m, [])
  {
    if id in st.table.pending {
      var e := st.table.pending[id];
      var n1 := SendEach(st.net, Contents(st.book, e.spies), Reply(id, answer));
      SendEachHeard(st.net, Contents(st.book, e.spies), Reply(id, answer), m);
      SendHeard(n1, e.sender, Reply(id, answer), m);
      HeardTwice(st.net, n1, ReplyNet(st, id, answer), m, [], []);
    } else {
      NothingHeard(st.net, st.net, m);
    }
  }

  lemma ConnectHeard(st: State, c: Client, m: Client)
    requires m in st.net.conn && m !in st.net.closed && m != c && Hears(st.exact, st.glob, m)
    ensures Heard(st.net, Connect(st, c).net, m, [NewClient(c.id, "")])
  {
    var n1 := st.net.(conn := st.net.conn[c := []]);
    TellHeard(n1, st.exact, st.glob, NewClient(c.id, ""), m);
  }

  lemma SubscribeHeard(st: State, c: Client, p: string, m: Client)
    requires m in st.net.conn && m !in st.net.closed
    requires Hears(Subscribing(st, c, p).exact, Subscribing(st, c, p).glob, m)
    ensures Heard(st.net, Subscribing(st, c, p).net, m, Subscribed(st, c, p))
  {
    if p in Patterns(st, c) {
      NothingHeard(st.net, st.net, m);
    } else {
      TellHeard(st.net, Subscribing(st, c, p).exact, Subscribing(st, c, p).glob, NewSubscriber(p, c.id), m);
    }
  }

  lemma TimeoutHeard(st: State, a: R.Alarm, m: Client)
    requires m in st.net.conn
    ensures Heard(st.net, TimeoutNet(st, a), m, [])
  {
    if a.id in st.table.pending {
      SendHeard(st.net, a.client, Reply(a.id, Error(Timeout)), m);
    } else {
      NothingHeard(st.net, st.net, m);
    }
  }

  /** Whatever the step, `m` is written exactly the events it publishes. */
  lemma StepHeard(st: State, step: Step, m: Client)
    requires Enabled(st, step) && Fair(step, m) && m in st.net.conn && m in st.names
    requires Hears(st.exact, st.glob, m) && Hears(Apply(st, step).exact, Apply(st, step).glob, m)
    requires m !in st.net.closed && m !in Apply(st, step).net.closed
    ensures Heard(st.net, Apply(st, step).net, m, Events(st, step))
  {
    match step
    case Connects(c) => ConnectHeard(st, c, m);
    case Renames(c, name) => TellHeard(st.net, st.exact, st.glob, ClientName(c.id, name), m);
    case Registers(s, none) => AnnounceHeard(st, s, m);
    case Subscribes(c, p) => SubscribeHeard(st, c, p, m);
    case Publishes(_, topic, payload) => PublishHeard(st, topic, payload, m);
    case SpiesOn(c, s, room, spare) => NothingHeard(st.net, st.net, m);
    case Requests(c, msg) => RequestHeard(st, c, msg, m);
    case Replies(_, id, answer) => ReplyHeard(st, id, answer, m);
    case Fires(k) => TimeoutHeard(st, st.table.armed[k], m);
    case Departs(c, exactKeys, globKeys) => DepartHeard(st, c, exactKeys, globKeys, m);
  }

  lemma ClosedGrows(st: State, step: Step)
    requires Enabled(st, step)
    ensures st.net.closed <= Apply(st, step).net.closed
  {
    match step
    case Requests(c, msg) => Memory.RequestNetKeys(st, c, msg);
    case Replies(_, id, answer) => Memory.ReplyNetKeys(st, id, answer);
    case Departs(c, exactKeys, globKeys) => FarewellLog(st, c, exactKeys, globKeys);
    case Registers(s, none) => Memory.AnnounceKeys(st, s);
    case Subscribes(_, _) =>
    case SpiesOn(_, _, _, _) =>
    case _ =>
  }

  /** One step of the run, with what the run needs of it. */
  lemma StepHeardInv(st: State, step: Step, m: Client)
    requires Runs.Inv(st) && Enabled(st, step) && Fair(step, m) && Ready(st, m)
    requires m !in Apply(st, step).net.closed
    ensures Heard(st.net, Apply(st, step).net, m, Events(st, step)) && Ready(Apply(st, step), m)
  {
    var st1 := Apply(st, step);
    ClosedGrows(st, step);
    Runs.StepKeeps(st, step);
    ReadyHears(st, m);
    StaysReadyInv(st, step, m);
    ReadyHears(st1, m);
    StepHeard(st, step, m);
  }

  lemma StaysReadyInv(st: State, step: Step, m: Client)
    requires Enabled(st, step) && Runs.Inv(st) && Runs.Inv(Apply(st, step)) && Fair(step, m) && Ready(st, m)
    ensures Ready(Apply(st, step), m)
  {
    assert forall id :: id in st.clients ==> st.clients[id].id == id;
    PatternsGrow(st, step, m);
    StaysReady(st, step, m);
  }

  ghost predicate AllFair(steps: seq<Step>, m: Client) {
    forall i :: 0 <= i < |steps| ==> Fair(steps[i], m)
  }

  lemma {:induction false} ClosedGrowsRun(st: State, steps: seq<Step>)
    requires Legal(st, steps)
    ensures st.net.closed <= Exec(st, steps).net.closed
    decreases |steps|
  {
    if steps != [] {
      ClosedGrows(st, steps[0]);
      ClosedGrowsRun(Apply(st, steps[0]), steps[1..]);
    }
  }

  lemma RunHeardHead(st: State, steps: seq<Step>, m: Client)
    requires Runs.Inv(st) && Legal(st, steps) && steps != [] && Ready(st, m) && AllFair(steps, m)
    requires m !in Exec(st, steps).net.closed
    ensures Runs.Inv(Apply(st, steps[0])) && Ready(Apply(st, steps[0]), m) && AllFair(steps[1..], m)
    ensures Heard(st.net, Apply(st, steps[0]).net, m, Events(st, steps[0]))
  {
    ClosedGrowsRun(Apply(st, steps[0]), steps[1..]);
    assert Fair(steps[0], m);
    Runs.StepKeeps(st, steps[0]);
    StepHeardInv(st, steps[0], m);
  }

  lemma {:induction false} RunHeard(st: State, steps: seq<Step>, m: Client)
    requires Runs.Inv(st) && Legal(st, steps) && Ready(st, m) && AllFair(steps, m)
    requires m !in Exec(st, steps).net.closed
    ensures Heard(st.net, Exec(st, steps).net, m, AllEvents(st, steps))
    decreases |steps|
  {
    if steps == [] {
      NothingHeard(st.net, st.net, m);
    } else {
      var st1 := Apply(st, steps[0]);
      RunHeardHead(st, steps, m);
      RunHeard(st1, steps[1..], m);
      HeardTwice(st.net, st1.net, Exec(st, steps).net, m, Events(st, steps[0]), AllEvents(st1, steps[1..]));
    }
  }

  /**
   * A client subscribed to `log.cellaserv.*` that takes the listings once can
   * keep them up to date from what the broker writes to its connection: over
   * any run in which it stays connected, nobody else publishes under the
   * broker's names and only connected clients are renamed, the events it is
   * written, applied to the listings it started from, are the listings at the
   * end, exactly when `cellaserv` is not registered for a second time.
   */
  lemma MonitorFollowsListings(st: State, steps: seq<Step>, m: Client)
    requires Runs.Inv(st) && Legal(st, steps) && RenamesOrderly(st, steps) && !st.crashed
    requires Connected(st, m) && LOG_PREFIX + "*" in Patterns(st, m) && AllFair(steps, m)
    requires m !in Exec(st, steps).net.closed
    ensures Written(st, m) <= Written(Exec(st, steps), m)
    ensures List(Exec(st, steps)) == SeeAll(List(st), EventsIn(Written(Exec(st, steps), m)[|Written(st, m)|..])) <==>
            Runs.Startups(steps) + (if st.started then 1 else 0) <= 1
  {
    LogStarCovers(Patterns(st, m));
    MonitorReady(st, m);
    RunHeard(st, steps, m);
    RunSeen(st, steps);
  }

  lemma MonitorReady(st: State, m: Client)
    requires Runs.Inv(st) && Connected(st, m) && Covers(Patterns(st, m))
    ensures Ready(st, m)
  {
    assert st.clients[m.id] in st.names;
  }
}
