/**
 * What each step of the broker writes to each connection, message by message,
 * and which connections it closes: said with the names on the wire, and without
 * the functions that write.
 */
module Outbox {
  import opened Seqs
  import opened Objects
  import opened Options
  import opened Glob
  import opened BrokerState
  import R = Requests
  import Subscriptions
  import Memory
  import Runs

  /** `m` as often as `k` says. */
  function Repeat(m: Message, k: nat): seq<Message> { seq(k, _ => m) }

  predicate Open(st: State, x: Client) { x !in st.net.closed }

  /** `x` is connected and has a pattern for the name: one with a star that matches it, or the very name. */
  ghost predicate Hears(st: State, x: Client, name: string) {
    Connected(st, x) && exists p :: p in Patterns(st, x) && if '*' in p then Match(p, name) else p == name
  }

  /** A publish to the subscribers of `st`, as `x` is written it. */
  ghost function News(st: State, x: Client, name: string, payload: Payload): seq<Message> {
    if Open(st, x) && Hears(st, x, name) then [Publish(name, payload)] else []
  }

  ghost predicate Appended(st: State, st': State, x: Client, ms: seq<Message>) {
    Written(st', x) == Written(st, x) + ms
  }

  // ------------------------------------------------------------ the primitives

  predicate Gets(n: Net, n': Net, x: Client, ms: seq<Message>) {
    x in n.conn && x in n'.conn && n'.conn[x] == n.conn[x] + ms && n'.closed == n.closed
  }

  lemma GetsBoth(n: Net, n1: Net, n2: Net, x: Client, a: seq<Message>, b: seq<Message>)
    requires Gets(n, n1, x, a) && Gets(n1, n2, x, b)
    ensures Gets(n, n2, x, a + b)
  {
    ConcatAssoc(n.conn[x], a, b);
  }

  lemma GetsNothing(n: Net, x: Client)
    requires x in n.conn
    ensures Gets(n, n, x, [])
  {
    ConcatNil(n.conn[x]);
  }

  lemma SendGets(n: Net, d: Client, m: Message, x: Client)
    requires x in n.conn
    ensures Gets(n, Send(n, d, m), x, Repeat(m, if x == d && x !in n.closed then 1 else 0))
  {
    if x == d && x !in n.closed {
      assert Repeat(m, 1) == [m];
    } else {
      assert Repeat(m, 0) == [];
      ConcatNil(n.conn[x]);
    }
  }

  lemma RepeatMore(m: Message, j: nat, k: nat)
    ensures Repeat(m, j) + Repeat(m, k) == Repeat(m, j + k)
  {
  }

  lemma {:induction false} SendEachGets(n: Net, to: seq<Client>, m: Message, x: Client)
    requires x in n.conn
    ensures Gets(n, SendEach(n, to, m), x, Repeat(m, if x in n.closed then 0 else multiset(to)[x]))
    decreases |to|
  {
    if to == [] {
      GetsNothing(n, x);
      assert Repeat(m, 0) == [];
    } else {
      var n1 := Send(n, to[0], m);
      SendGets(n, to[0], m, x);
      SendEachGets(n1, to[1..], m, x);
      MultisetHead(to);
      var j, k := if x == to[0] && x !in n.closed then 1 else 0, if x in n.closed then 0 else multiset(to[1..])[x];
      GetsBoth(n, n1, SendEach(n, to, m), x, Repeat(m, j), Repeat(m, k));
      RepeatMore(m, j, k);
    }
  }

  lemma DeliverGets(n: Net, to: set<Client>, m: Message, x: Client)
    requires x in n.conn
    ensures Gets(n, Deliver(n, to, m), x, if x in to && x !in n.closed then [m] else [])
  {
    ConcatNil(n.conn[x]);
  }

  lemma TellGets(n: Net, exact: Subscribers, glob: Subscribers, e: Event, name: string, x: Client)
    requires x in n.conn && name == Topic(e)
    ensures Gets(n, Tell(n, exact, glob, e), x,
                 if x in Recipients(exact, glob, name) && x !in n.closed then [Publish(name, Json(e))] else [])
  {
    DeliverGets(n.(log := n.log + [e]), Recipients(exact, glob, name), Publish(name, Json(e)), x);
  }

  // The names on the wire.

  lemma NewClientGoesUnder(e: Event)
    requires e.NewClient?
    ensures Topic(e) == "log.cellaserv.new-client"
  {
  }

  lemma LostClientGoesUnder(e: Event)
    requires e.LostClient?
    ensures Topic(e) == "log.cellaserv.lost-client"
  {
  }

  lemma ClientNameGoesUnder(e: Event)
    requires e.ClientName?
    ensures Topic(e) == "log.cellaserv.client-name"
  {
  }

  lemma NewServiceGoesUnder(e: Event)
    requires e.NewService?
    ensures Topic(e) == "log.cellaserv.new-service"
  {
  }

  lemma LostServiceGoesUnder(e: Event)
    requires e.LostService?
    ensures Topic(e) == "log.cellaserv.lost-service"
  {
  }

  lemma NewSubscriberGoesUnder(e: Event)
    requires e.NewSubscriber?
    ensures Topic(e) == "log.cellaserv.new-subscriber"
  {
  }

  lemma LostSubscriberGoesUnder(e: Event)
    requires e.LostSubscriber?
    ensures Topic(e) == "log.cellaserv.lost-subscriber"
  {
  }

  lemma HearersAre(st: State, x: Client, name: string)
    requires Subscriptions.Inv(st)
    ensures x in Recipients(st.exact, st.glob, name) <==> Hears(st, x, name)
  {
    Subscriptions.RecipientsAre(st, name, x);
    if Hears(st, x, name) {
      var p :| p in Patterns(st, x) && if '*' in p then Match(p, name) else p == name;
      assert IndexMatch(p, name);
    }
    if Subscriptions.Indexed(st, x, name) {
      var p :| p in Patterns(st, x) && IndexMatch(p, name);
      assert if '*' in p then Match(p, name) else p == name;
    }
  }

  lemma TellNews(st: State, n: Net, e: Event, name: string, x: Client)
    requires Subscriptions.Inv(st) && x in n.conn && n.closed == st.net.closed && name == Topic(e)
    ensures Gets(n, Tell(n, st.exact, st.glob, e), x, News(st, x, name, Json(e)))
  {
    TellGets(n, st.exact, st.glob, e, name, x);
    HearersAre(st, x, name);
  }

  // ------------------------------------------------------------------ requests

  lemma SendOneGets(n: Net, d: Client, m: Message, x: Client)
    requires x in n.conn
    ensures Gets(n, Send(n, d, m), x, if x == d && x !in n.closed then [m] else [])
  {
    SendGets(n, d, m, x);
    assert Repeat(m, 1) == [m] && Repeat(m, 0) == [];
  }

  lemma ForwardGets(n: Net, d: Client, to: seq<Client>, m: Message, x: Client)
    requires x in n.conn
    ensures Gets(n, SendEach(Send(n, d, m), to, m), x,
                 Repeat(m, if x in n.closed then 0 else multiset(to)[x] + if x == d then 1 else 0))
  {
    var n1 := Send(n, d, m);
    var j, k := if x == d && x !in n.closed then 1 else 0, if x in n.closed then 0 else multiset(to)[x];
    SendGets(n, d, m, x);
    SendEachGets(n1, to, m, x);
    GetsBoth(n, n1, SendEach(n1, to, m), x, Repeat(m, j), Repeat(m, k));
    RepeatMore(m, j, k);
  }

  lemma CopyGets(n: Net, to: seq<Client>, d: Client, m: Message, x: Client)
    requires x in n.conn
    ensures Gets(n, Send(SendEach(n, to, m), d, m), x,
                 Repeat(m, if x in n.closed then 0 else multiset(to)[x] + if x == d then 1 else 0))
  {
    var n1 := SendEach(n, to, m);
    var j, k := if x in n.closed then 0 else multiset(to)[x], if x == d && x !in n.closed then 1 else 0;
    SendEachGets(n, to, m, x);
    SendGets(n1, d, m, x);
    GetsBoth(n, n1, Send(n1, d, m), x, Repeat(m, j), Repeat(m, k));
    RepeatMore(m, j, k);
  }

  lemma GetsIsAppended(st: State, st': State, x: Client, ms: seq<Message>)
    requires Gets(st.net, st'.net, x, ms)
    ensures Appended(st, st', x, ms)
  {
  }

  /** How often `x` is to be written a request to `s`: as its client, and once per time it spies. */
  function Forwards(st: State, s: Service, x: Client): nat {
    if Open(st, x) then multiset(SpiesOf(st.book, s))[x] + (if x == s.client then 1 else 0) else 0
  }

  /**
   * An accepted request is written to its service's client once and to each spy
   * once per time it spies, on connections still open, and to no one else.
   */
  lemma RequestWritten(st: State, c: Client, m: Message, s: Service, x: Client)
    requires m.Request? && Lookup(st.services, m.name, m.ident) == Some(s) && s in st.book.spies && x in st.net.conn
    ensures Appended(st, Requesting(st, c, m), x, Repeat(m, Forwards(st, s, x)))
  {
    assert RequestNet(st, c, m) == SendEach(Send(st.net, s.client, m), SpiesOf(st.book, s), m);
    ForwardGets(st.net, s.client, SpiesOf(st.book, s), m, x);
    GetsIsAppended(st, Requesting(st, c, m), x, Repeat(m, Forwards(st, s, x)));
  }

  ghost predicate NameTaken(st: State, name: string) { exists ident :: Lookup(st.services, name, ident).Some? }

  lemma RefusalIs(st: State, name: string)
    ensures Refusal(st.services, name) == if NameTaken(st, name) then InvalidIdentification else NoSuchService
  {
    if name in st.services && st.services[name] != map[] {
      var ident :| ident in st.services[name];
      assert Lookup(st.services, name, ident).Some?;
    }
  }

  /** Any other request is answered to its sender, by the error that says which part of its key is not known. */
  lemma RefusalWritten(st: State, c: Client, m: Message, x: Client)
    requires m.Request? && Lookup(st.services, m.name, m.ident) == None && x in st.net.conn
    ensures Appended(st, Requesting(st, c, m), x,
                     if x == c && Open(st, x)
                     then [Reply(m.id, Error(if NameTaken(st, m.name) then InvalidIdentification else NoSuchService))] else [])
  {
    RefusalIs(st, m.name);
    SendOneGets(st.net, c, Reply(m.id, Error(Refusal(st.services, m.name))), x);
    assert RequestNet(st, c, m) == Send(st.net, c, Reply(m.id, Error(Refusal(st.services, m.name))));
  }

  /** How often `x` is to be written the reply: once per time it is in the snapshot, and as the sender. */
  function Copies(st: State, id: RequestId, x: Client): nat {
    if id !in st.table.pending || !Open(st, x) then 0
    else
      var e := st.table.pending[id];
      multiset(Contents(st.book, e.spies))[x] + if x == e.sender then 1 else 0
  }

  /** A reply to a pending request is written to the clients of its snapshot and to its sender; any other to no one. */
  lemma ReplyWritten(st: State, id: RequestId, answer: Answer, x: Client)
    requires x in st.net.conn
    ensures Appended(st, Replying(st, id, answer), x, Repeat(Reply(id, answer), Copies(st, id, x)))
  {
    if id in st.table.pending {
      var e := st.table.pending[id];
      CopyGets(st.net, Contents(st.book, e.spies), e.sender, Reply(id, answer), x);
    } else {
      GetsNothing(st.net, x);
      assert Repeat(Reply(id, answer), 0) == [];
    }
    GetsIsAppended(st, Replying(st, id, answer), x, Repeat(Reply(id, answer), Copies(st, id, x)));
  }

  function Timeouts(st: State, a: R.Alarm, x: Client): seq<Message> {
    if x == a.client && a.id in st.table.pending && Open(st, x) then [Reply(a.id, Error(Timeout))] else []
  }

  lemma TimeoutGets(st: State, a: R.Alarm, x: Client)
    requires x in st.net.conn
    ensures Gets(st.net, TimeoutNet(st, a), x, Timeouts(st, a, x))
  {
    SendOneGets(st.net, a.client, Reply(a.id, Error(Timeout)), x);
    GetsNothing(st.net, x);
  }

  /** A timer that fires writes the timeout to the client its closure captured, if its id is pending. */
  lemma TimeoutWritten(st: State, k: R.Timer, x: Client)
    requires k in st.table.armed && x in st.net.conn
    ensures Appended(st, Fire(st, k), x, Timeouts(st, st.table.armed[k], x))
  {
    TimeoutGets(st, st.table.armed[k], x);
    GetsIsAppended(st, Fire(st, k), x, Timeouts(st, st.table.armed[k], x));
  }

  // ------------------------------------------------------------------ publishes

  /** A client's publish goes once to each connected client with a pattern for its name. */
  lemma PublishWritten(st: State, name: string, payload: Payload, x: Client)
    requires Subscriptions.Inv(st) && x in st.net.conn
    ensures Appended(st, DoPublish(st, name, payload), x, News(st, x, name, payload))
  {
    DeliverGets(st.net, Recipients(st.exact, st.glob, name), Publish(name, payload), x);
    HearersAre(st, x, name);
  }

  lemma ConnectWritten(st: State, c: Client, x: Client)
    requires Subscriptions.Inv(st) && c !in st.names && c.id !in st.clients && x in st.net.conn && x != c
    ensures Appended(st, Connect(st, c), x, News(st, x, "log.cellaserv.new-client", Json(NewClient(c.id, ""))))
    ensures Written(Connect(st, c), c) == []
  {
    NewClientGoesUnder(NewClient(c.id, ""));
    TellNews(st, Admit(st, c).net, NewClient(c.id, ""), "log.cellaserv.new-client", x);
    TellNews(st, Admit(st, c).net, NewClient(c.id, ""), "log.cellaserv.new-client", c);
    assert Subscriptions.Inv(st) ==> !Connected(st, c);
  }

  lemma RenameWritten(st: State, c: Client, name: string, x: Client)
    requires Subscriptions.Inv(st) && x in st.net.conn
    ensures Appended(st, Rename(st, c, name), x, News(st, x, "log.cellaserv.client-name", Json(ClientName(c.id, name))))
  {
    ClientNameGoesUnder(ClientName(c.id, name));
    TellNews(st, st.net, ClientName(c.id, name), "log.cellaserv.client-name", x);
  }

  ghost function ReplacedNews(st: State, s: Service, x: Client): seq<Message> {
    match Lookup(st.services, s.name, s.ident)
    case None => []
    case Some(d) => News(st, x, "log.cellaserv.lost-service", Json(LostService(d.client.id, d.name, d.ident)))
  }

  ghost function EnteredNews(st: State, s: Service, x: Client): seq<Message> {
    if s.name == "cellaserv" && st.started then []
    else News(st, x, "log.cellaserv.new-service", Json(NewService(s.client.id, s.name, s.ident)))
  }

  lemma ReplacedGets(st: State, s: Service, x: Client)
    requires Subscriptions.Inv(st) && x in st.net.conn
    ensures var n := Superseded(st.net, st.exact, st.glob, Lookup(st.services, s.name, s.ident));
            Gets(st.net, n, x, ReplacedNews(st, s, x))
  {
    match Lookup(st.services, s.name, s.ident)
    case None => GetsNothing(st.net, x);
    case Some(d) =>
      LostServiceGoesUnder(LostService(d.client.id, d.name, d.ident));
      TellNews(st, st.net, LostService(d.client.id, d.name, d.ident), "log.cellaserv.lost-service", x);
  }

  lemma EnteredGets(st: State, s: Service, n: Net, x: Client)
    requires Subscriptions.Inv(st) && x in n.conn && n.closed == st.net.closed
    requires n == Superseded(st.net, st.exact, st.glob, Lookup(st.services, s.name, s.ident))
    ensures Gets(n, Announce(st, s), x, EnteredNews(st, s, x))
  {
    if Panics(st, s) {
      GetsNothing(n, x);
    } else {
      NewServiceGoesUnder(NewService(s.client.id, s.name, s.ident));
      TellNews(st, n, NewService(s.client.id, s.name, s.ident), "log.cellaserv.new-service", x);
    }
  }

  /** The service replaced is told of first, with its own owner; then the new one, unless the process panics. */
  lemma RegisterWritten(st: State, s: Service, none: array<Client>, x: Client)
    requires Subscriptions.Inv(st) && x in st.net.conn
    ensures Appended(st, Registering(st, s, none), x, ReplacedNews(st, s, x) + EnteredNews(st, s, x))
  {
    var n := Superseded(st.net, st.exact, st.glob, Lookup(st.services, s.name, s.ident));
    ReplacedGets(st, s, x);
    EnteredGets(st, s, n, x);
    GetsBoth(st.net, n, Announce(st, s), x, ReplacedNews(st, s, x), EnteredNews(st, s, x));
    GetsIsAppended(st, Registering(st, s, none), x, ReplacedNews(st, s, x) + EnteredNews(st, s, x));
  }

  lemma SubscribeTold(st: State, c: Client, p: string)
    requires p !in Patterns(st, c)
    ensures var st' := Subscribing(st, c, p);
            st'.net == Tell(st.net, st'.exact, st'.glob, NewSubscriber(p, c.id)) && st'.net.closed == st.net.closed
  {
  }

  lemma SubscribeGets(st: State, st': State, e: Event, name: string, x: Client)
    requires Subscriptions.Inv(st') && x in st.net.conn && name == Topic(e)
    requires st'.net == Tell(st.net, st'.exact, st'.glob, e) && st'.net.closed == st.net.closed
    ensures Gets(st.net, st'.net, x, News(st', x, name, Json(e)))
  {
    TellGets(st.net, st'.exact, st'.glob, e, name, x);
    HearersAre(st', x, name);
  }

  /** A new subscription is told of to the subscribers that there are with it. */
  lemma SubscribeWritten(st: State, c: Client, p: string, x: Client)
    requires Subscriptions.Inv(st) && Connected(st, c) && x in st.net.conn
    ensures Appended(st, Subscribing(st, c, p), x,
                     if p in Patterns(st, c) then []
                     else News(Subscribing(st, c, p), x, "log.cellaserv.new-subscriber", Json(NewSubscriber(p, c.id))))
  {
    var st' := Subscribing(st, c, p);
    if p in Patterns(st, c) {
      GetsNothing(st.net, x);
    } else {
      Subscriptions.SubscribeKeeps(st, c, p);
      SubscribeTold(st, c, p);
      NewSubscriberGoesUnder(NewSubscriber(p, c.id));
      SubscribeGets(st, st', NewSubscriber(p, c.id), "log.cellaserv.new-subscriber", x);
      GetsIsAppended(st, st', x, News(st', x, "log.cellaserv.new-subscriber", Json(NewSubscriber(p, c.id))));
    }
  }

  // ----------------------------------------------------------------- departures

  /** How many of the services are told of to `x`: up to the first that it spies on, which closes its connection. */
  function Told(b: SpyBook, list: seq<Service>, x: Client): (k: nat)
    ensures k <= |list|
    ensures forall i :: 0 <= i < k - 1 ==> x !in SpiesOf(b, list[i])
    ensures k < |list| ==> k > 0 && x in SpiesOf(b, list[k - 1])
  {
    if list == [] then 0 else if x in SpiesOf(b, list[0]) then 1 else 1 + Told(b, list[1..], x)
  }

  function Losses(list: seq<Service>, k: nat): seq<Message>
    requires k <= |list|
  {
    seq(k, i requires 0 <= i < k =>
      Publish("log.cellaserv.lost-service", Json(LostService(list[i].client.id, list[i].name, list[i].ident))))
  }

  /** The spies of a service of the list. */
  function SpiesOfAny(b: SpyBook, list: seq<Service>): set<Client> {
    set s, x | s in list && x in SpiesOf(b, s) :: x
  }

  lemma {:induction false} WithdrawCloses(n: Net, exact: Subscribers, glob: Subscribers, b: SpyBook, list: seq<Service>)
    ensures Withdraw(n, exact, glob, b, list).closed == n.closed + SpiesOfAny(b, list)
    decreases |list|
  {
    if list != [] {
      var n1 := Tell(n, exact, glob, Lost(list[0]));
      WithdrawCloses(n1.(closed := n1.closed + set c | c in SpiesOf(b, list[0])), exact, glob, b, list[1..]);
      assert forall s :: s in list <==> s == list[0] || s in list[1..];
    }
  }

  /** What withdrawing the services writes to a subscriber of their losses. */
  lemma {:induction false} WithdrawGets(n: Net, exact: Subscribers, glob: Subscribers, b: SpyBook, list: seq<Service>,
          x: Client)
    requires x in n.conn
    ensures var n' := Withdraw(n, exact, glob, b, list);
            x in n'.conn && n'.conn[x] == n.conn[x] +
              if x !in n.closed && x in Recipients(exact, glob, "log.cellaserv.lost-service") then Losses(list, Told(b, list, x)) else []
    decreases |list|
  {
    if list == [] {
      ConcatNil(n.conn[x]);
    } else {
      var name := "log.cellaserv.lost-service";
      var n1 := Tell(n, exact, glob, Lost(list[0]));
      var n2 := n1.(closed := n1.closed + set c | c in SpiesOf(b, list[0]));
      LostServiceGoesUnder(Lost(list[0]));
      TellGets(n, exact, glob, Lost(list[0]), name, x);
      WithdrawGets(n2, exact, glob, b, list[1..], x);
      if x !in n.closed && x in Recipients(exact, glob, name) {
        LossesHead(b, list, x);
        if x !in SpiesOf(b, list[0]) {
          ConcatAssoc(n.conn[x], Losses(list, 1), Losses(list[1..], Told(b, list[1..], x)));
        } else {
          ConcatNil(n.conn[x] + Losses(list, 1));
        }
      } else {
        ConcatNil(n.conn[x]);
      }
    }
  }

  lemma LossesHead(b: SpyBook, list: seq<Service>, x: Client)
    requires list != []
    ensures Losses(list, 1) == [Publish("log.cellaserv.lost-service", Json(Lost(list[0])))]
    ensures Losses(list, Told(b, list, x)) ==
            if x in SpiesOf(b, list[0]) then Losses(list, 1) else Losses(list, 1) + Losses(list[1..], Told(b, list[1..], x))
  {
  }

  function Removals(es: seq<Event>): seq<Message> {
    seq(|es|, i requires 0 <= i < |es| => Publish("log.cellaserv.lost-subscriber", Json(es[i])))
  }

  lemma {:induction false} TellAllGets(n: Net, exact: Subscribers, glob: Subscribers, es: seq<Event>, x: Client)
    requires x in n.conn && forall e :: e in es ==> e.LostSubscriber?
    ensures Gets(n, TellAll(n, exact, glob, es), x,
                 if x !in n.closed && x in Recipients(exact, glob, "log.cellaserv.lost-subscriber") then Removals(es) else [])
    decreases |es|
  {
    if es == [] {
      GetsNothing(n, x);
    } else {
      var name := "log.cellaserv.lost-subscriber";
      var n1 := Tell(n, exact, glob, es[0]);
      LostSubscriberGoesUnder(es[0]);
      TellGets(n, exact, glob, es[0], name, x);
      TellAllGets(n1, exact, glob, es[1..], x);
      var hears := x !in n.closed && x in Recipients(exact, glob, name);
      GetsBoth(n, n1, TellAll(n, exact, glob, es), x, if hears then [Publish(name, Json(es[0]))] else [],
               if hears then Removals(es[1..]) else []);
      assert Removals(es) == [Publish(name, Json(es[0]))] + Removals(es[1..]);
    }
  }

  /** What follows the losses of services, on a connection that these have not closed. */
  lemma LastGets(n1: Net, exact: Subscribers, glob: Subscribers, es: seq<Event>, last: Event, x: Client)
    requires x in n1.conn && (forall e :: e in es ==> e.LostSubscriber?) && last.LostClient?
    ensures Gets(n1, Tell(TellAll(n1, exact, glob, es), exact, glob, last), x,
                 (if x !in n1.closed && x in Recipients(exact, glob, "log.cellaserv.lost-subscriber") then Removals(es) else [])
                 + (if x !in n1.closed && x in Recipients(exact, glob, "log.cellaserv.lost-client")
                    then [Publish("log.cellaserv.lost-client", Json(last))] else []))
  {
    var n2 := TellAll(n1, exact, glob, es);
    TellAllGets(n1, exact, glob, es, x);
    LostClientGoesUnder(last);
    TellGets(n2, exact, glob, last, "log.cellaserv.lost-client", x);
    GetsBoth(n1, n2, Tell(n2, exact, glob, last), x,
             if x !in n1.closed && x in Recipients(exact, glob, "log.cellaserv.lost-subscriber") then Removals(es) else [],
             if x !in n1.closed && x in Recipients(exact, glob, "log.cellaserv.lost-client")
             then [Publish("log.cellaserv.lost-client", Json(last))] else []);
  }

  /** The messages of a departure to `x`, given the state `st'` that it leaves. */
  ghost function Farewells(st: State, st': State, c: Client, exactKeys: seq<string>, globKeys: seq<string>,
          x: Client): seq<Message> {
    FarewellsFirst(st, c, x) + FarewellsLast(st, st', c, exactKeys, globKeys, x)
  }

  ghost function FarewellsFirst(st: State, c: Client, x: Client): seq<Message> {
    if Open(st, x) && Hears(st, x, "log.cellaserv.lost-service") then Losses(Owned(st, c), Told(st.book, Owned(st, c), x)) else []
  }

  ghost function FarewellsLast(st: State, st': State, c: Client, exactKeys: seq<string>, globKeys: seq<string>,
          x: Client): seq<Message> {
    var es := Dropped(st.exact, exactKeys, c) + Dropped(st.glob, globKeys, c);
    (if Open(st', x) && Hears(st', x, "log.cellaserv.lost-subscriber") then Removals(es) else [])
    + News(st', x, "log.cellaserv.lost-client", Json(LostClient(c.id, NameOf(st, c))))
  }

  /** A departure closes the connections of the spies of the client's services, and no other. */
  lemma DepartCloses(st: State, c: Client, exactKeys: seq<string>, globKeys: seq<string>)
    ensures Depart(st, c, exactKeys, globKeys).net.closed == st.net.closed + SpiesOfAny(st.book, Owned(st, c))
  {
    var n1 := Withdraw(st.net, st.exact, st.glob, st.book, Owned(st, c));
    var es := Dropped(st.exact, exactKeys, c) + Dropped(st.glob, globKeys, c);
    WithdrawCloses(st.net, st.exact, st.glob, st.book, Owned(st, c));
    TellAllCloses(n1, DropFrom(st.exact, c), DropFrom(st.glob, c), es);
  }

  lemma {:induction false} TellAllCloses(n: Net, exact: Subscribers, glob: Subscribers, es: seq<Event>)
    ensures TellAll(n, exact, glob, es).closed == n.closed
    decreases |es|
  {
    if es != [] {
      TellAllCloses(Tell(n, exact, glob, es[0]), exact, glob, es[1..]);
    }
  }

  /**
   * A departure tells of each service that goes, with its owner, until `x` spies
   * on one of them; then, if `x` does not, of each subscription and of the client.
   */
  lemma DepartWritten(st: State, c: Client, exactKeys: seq<string>, globKeys: seq<string>, x: Client)
    requires Subscriptions.Inv(st) && Connected(st, c) && x in st.net.conn
    requires Enumerates(exactKeys, st.exact) && Enumerates(globKeys, st.glob)
    ensures var st' := Depart(st, c, exactKeys, globKeys);
            Appended(st, st', x, Farewells(st, st', c, exactKeys, globKeys, x))
  {
    var st' := Depart(st, c, exactKeys, globKeys);
    var n1 := Withdraw(st.net, st.exact, st.glob, st.book, Owned(st, c));
    var last := FarewellsLast(st, st', c, exactKeys, globKeys, x);
    HearersAre(st, x, "log.cellaserv.lost-service");
    WithdrawGets(st.net, st.exact, st.glob, st.book, Owned(st, c), x);
    FarewellEnds(st, c, exactKeys, globKeys, n1, x);
    TwoParts(st, st', n1, x, FarewellsFirst(st, c, x), last);
  }

  /** The last part of a departure, told to the subscribers that remain. */
  lemma FarewellEnds(st: State, c: Client, exactKeys: seq<string>, globKeys: seq<string>, n1: Net, x: Client)
    requires Subscriptions.Inv(st) && Connected(st, c) && x in n1.conn
    requires Enumerates(exactKeys, st.exact) && Enumerates(globKeys, st.glob)
    requires n1 == Withdraw(st.net, st.exact, st.glob, st.book, Owned(st, c))
    ensures var st' := Depart(st, c, exactKeys, globKeys);
            Gets(n1, st'.net, x, FarewellsLast(st, st', c, exactKeys, globKeys, x))
  {
    var st' := Depart(st, c, exactKeys, globKeys);
    var es := Dropped(st.exact, exactKeys, c) + Dropped(st.glob, globKeys, c);
    Subscriptions.OneEventPerSubscription(st, c, exactKeys, globKeys, "");
    LastGets(n1, st'.exact, st'.glob, es, LostClient(c.id, NameOf(st, c)), x);
    Subscriptions.DepartKeeps(st, c, exactKeys, globKeys);
    HearersAre(st', x, "log.cellaserv.lost-subscriber");
    HearersAre(st', x, "log.cellaserv.lost-client");
  }

  lemma TwoParts(st: State, st': State, n1: Net, x: Client, a: seq<Message>, b: seq<Message>)
    requires x in st.net.conn && x in n1.conn && n1.conn[x] == st.net.conn[x] + a && Gets(n1, st'.net, x, b)
    ensures Appended(st, st', x, a + b)
  {
    ConcatAssoc(st.net.conn[x], a, b);
  }

  // ------------------------------------------------------------------ any step

  /** What a step writes to a client that was there before it. */
  ghost function Output(st: State, step: Step, x: Client): seq<Message>
    requires Enabled(st, step)
  {
    match step
    case Connects(c) => News(st, x, "log.cellaserv.new-client", Json(NewClient(c.id, "")))
    case Renames(c, name) => News(st, x, "log.cellaserv.client-name", Json(ClientName(c.id, name)))
    case Registers(s, _) => ReplacedNews(st, s, x) + EnteredNews(st, s, x)
    case Subscribes(c, p) =>
      if p in Patterns(st, c) then []
      else News(Apply(st, step), x, "log.cellaserv.new-subscriber", Json(NewSubscriber(p, c.id)))
    case Publishes(_, name, payload) => News(st, x, name, payload)
    case SpiesOn(_, _, _, _) => []
    case Requests(c, m) =>
      (match Lookup(st.services, m.name, m.ident)
       case None =>
         if x == c && Open(st, x)
         then [Reply(m.id, Error(if NameTaken(st, m.name) then InvalidIdentification else NoSuchService))] else []
       case Some(s) => Repeat(m, Forwards(st, s, x)))
    case Replies(_, id, answer) => Repeat(Reply(id, answer), Copies(st, id, x))
    case Fires(k) => Timeouts(st, st.table.armed[k], x)
    case Departs(c, exactKeys, globKeys) => Farewells(st, Apply(st, step), c, exactKeys, globKeys, x)
  }

  lemma RequestOutput(st: State, c: Client, m: Message, x: Client)
    requires Memory.ServicesKnown(st.services, st.book) && Enabled(st, Requests(c, m)) && x in st.net.conn
    ensures Appended(st, Requesting(st, c, m), x, Output(st, Requests(c, m), x))
  {
    match Lookup(st.services, m.name, m.ident)
    case None => RefusalWritten(st, c, m, x);
    case Some(s) => RequestWritten(st, c, m, s, x);
  }

  /** Every step, every connection: exactly these messages, in this order. */
  lemma StepOutput(st: State, step: Step, x: Client)
    requires Subscriptions.Inv(st) && Memory.ServicesKnown(st.services, st.book)
    requires Enabled(st, step) && x in st.net.conn && x in st.names
    ensures Appended(st, Apply(st, step), x, Output(st, step, x))
  {
    match step
    case Connects(c) => ConnectWritten(st, c, x);
    case Renames(c, name) => RenameWritten(st, c, name, x);
    case Registers(s, none) => RegisterWritten(st, s, none, x);
    case Subscribes(c, p) => SubscribeWritten(st, c, p, x);
    case Publishes(_, name, payload) => PublishWritten(st, name, payload, x);
    case SpiesOn(_, _, _, _) => GetsNothing(st.net, x);
    case Requests(c, m) => RequestOutput(st, c, m, x);
    case Replies(_, id, answer) => ReplyWritten(st, id, answer, x);
    case Fires(k) => TimeoutWritten(st, k, x);
    case Departs(c, exactKeys, globKeys) => DepartWritten(st, c, exactKeys, globKeys, x);
  }

  /** What a run writes to a client that was there before it. */
  ghost function RunOutput(st: State, steps: seq<Step>, x: Client): seq<Message>
    requires Legal(st, steps)
    decreases |steps|
  {
    if steps == [] then [] else Output(st, steps[0], x) + RunOutput(Apply(st, steps[0]), steps[1..], x)
  }

  lemma StepParts(st: State, step: Step, x: Client)
    requires Runs.Inv(st) && Enabled(st, step) && x in st.names
    ensures Appended(st, Apply(st, step), x, Output(st, step, x))
    ensures Runs.Inv(Apply(st, step)) && x in Apply(st, step).names
  {
    assert x in st.net.conn;
    StepOutput(st, step, x);
    Runs.StepKeeps(st, step);
    NamesGrow(st, step);
  }

  lemma NamesGrow(st: State, step: Step)
    requires Enabled(st, step)
    ensures st.names.Keys <= Apply(st, step).names.Keys
  {
    match step
    case Subscribes(_, _) =>
    case _ =>
  }

  /** Over any run, a connection has been written exactly the messages of its steps, in order. */
  lemma {:induction false} RunWrites(st: State, steps: seq<Step>, x: Client)
    requires Runs.Inv(st) && Legal(st, steps) && x in st.names
    ensures Appended(st, Exec(st, steps), x, RunOutput(st, steps, x))
    decreases |steps|
  {
    if steps == [] {
      ConcatNil(Written(st, x));
    } else {
      StepParts(st, steps[0], x);
      RunWrites(Apply(st, steps[0]), steps[1..], x);
      ConcatAssoc(Written(st, x), Output(st, steps[0], x), RunOutput(Apply(st, steps[0]), steps[1..], x));
    }
  }

  /** Only departures close connections. */
  lemma StepCloses(st: State, step: Step)
    requires Enabled(st, step)
    ensures Apply(st, step).net.closed ==
            st.net.closed + match step case Departs(c, _, _) => SpiesOfAny(st.book, Owned(st, c)) case _ => {}
  {
    match step
    case Requests(c, m) => Memory.RequestNetKeys(st, c, m);
    case Replies(_, id, answer) => Memory.ReplyNetKeys(st, id, answer);
    case Departs(c, exactKeys, globKeys) => DepartCloses(st, c, exactKeys, globKeys);
    case Subscribes(_, _) =>
    case _ =>
  }
}
