/** How many replies to a request each step of the broker writes to a connection. */
module Traffic {
  import opened Seqs
  import opened Objects
  import opened Options
  import opened BrokerState
  import R = Requests

  predicate IsReply(m: Message, id: RequestId) { m.Reply? && m.id == id }

  predicate IsAsk(m: Message, id: RequestId) { m.Request? && m.id == id }

  function RepliesIn(ms: seq<Message>, id: RequestId): nat {
    if ms == [] then 0 else (if IsReply(ms[0], id) then 1 else 0) + RepliesIn(ms[1..], id)
  }

  function AsksIn(ms: seq<Message>, id: RequestId): nat {
    if ms == [] then 0 else (if IsAsk(ms[0], id) then 1 else 0) + AsksIn(ms[1..], id)
  }

  lemma {:induction false} CountConcat(ms: seq<Message>, ns: seq<Message>, id: RequestId)
    ensures RepliesIn(ms + ns, id) == RepliesIn(ms, id) + RepliesIn(ns, id)
    ensures AsksIn(ms + ns, id) == AsksIn(ms, id) + AsksIn(ns, id)
  {
    if ms == [] {
      assert ms + ns == ns;
    } else {
      CountConcat(ms[1..], ns, id);
      assert (ms + ns)[1..] == ms[1..] + ns;
    }
  }

  lemma CountOne(ms: seq<Message>, m: Message, id: RequestId)
    ensures RepliesIn(ms + [m], id) == RepliesIn(ms, id) + if IsReply(m, id) then 1 else 0
    ensures AsksIn(ms + [m], id) == AsksIn(ms, id) + if IsAsk(m, id) then 1 else 0
  {
    CountConcat(ms, [m], id);
  }

  /** Between `n` and `n'`, `k` replies to `id` were written to the connection of `c`. */
  ghost predicate Wrote(n: Net, n': Net, c: Client, id: RequestId, k: nat) {
    && c in n.conn && c in n'.conn && n.closed <= n'.closed
    && n.conn[c] <= n'.conn[c] && RepliesIn(n'.conn[c], id) == RepliesIn(n.conn[c], id) + k
  }

  lemma WroteThen(n: Net, n1: Net, n2: Net, c: Client, id: RequestId, j: nat, k: nat)
    requires Wrote(n, n1, c, id, j) && Wrote(n1, n2, c, id, k)
    ensures Wrote(n, n2, c, id, j + k)
  {
  }

  predicate Open(n: Net, c: Client) { c !in n.closed }

  lemma SendWrites(n: Net, d: Client, m: Message, c: Client, id: RequestId)
    requires c in n.conn
    ensures Wrote(n, Send(n, d, m), c, id, if d == c && Open(n, c) && IsReply(m, id) then 1 else 0)
    ensures Send(n, d, m).closed == n.closed
  {
    CountOne(n.conn[c], m, id);
  }

  /** A list of clients is written to once per occurrence. */
  lemma {:induction false} SendEachWrites(n: Net, to: seq<Client>, m: Message, c: Client, id: RequestId)
    requires c in n.conn
    ensures Wrote(n, SendEach(n, to, m), c, id, if Open(n, c) && IsReply(m, id) then multiset(to)[c] else 0)
    ensures SendEach(n, to, m).closed == n.closed
    decreases |to|
  {
    if to != [] {
      var n1 := Send(n, to[0], m);
      MultisetHead(to);
      SendWrites(n, to[0], m, c, id);
      SendEachWrites(n1, to[1..], m, c, id);
    }
  }

  lemma DeliverWrites(n: Net, to: set<Client>, topic: string, payload: Payload, c: Client, id: RequestId)
    requires c in n.conn
    ensures Wrote(n, Deliver(n, to, Publish(topic, payload)), c, id, 0)
  {
    CountOne(n.conn[c], Publish(topic, payload), id);
  }

  lemma TellWrites(n: Net, exact: Subscribers, glob: Subscribers, e: Event, c: Client, id: RequestId)
    requires c in n.conn
    ensures Wrote(n, Tell(n, exact, glob, e), c, id, 0)
  {
    DeliverWrites(n.(log := n.log + [e]), Recipients(exact, glob, Topic(e)), Topic(e), Json(e), c, id);
  }

  lemma {:induction false} TellAllWrites(n: Net, exact: Subscribers, glob: Subscribers, es: seq<Event>,
          c: Client, id: RequestId)
    requires c in n.conn
    ensures Wrote(n, TellAll(n, exact, glob, es), c, id, 0)
    decreases |es|
  {
    if es != [] {
      var n1 := Tell(n, exact, glob, es[0]);
      TellWrites(n, exact, glob, es[0], c, id);
      TellAllWrites(n1, exact, glob, es[1..], c, id);
      WroteThen(n, n1, TellAll(n1, exact, glob, es[1..]), c, id, 0, 0);
    }
  }

  lemma {:induction false} WithdrawWrites(n: Net, exact: Subscribers, glob: Subscribers, book: SpyBook,
          list: seq<Service>, c: Client, id: RequestId)
    requires c in n.conn
    ensures Wrote(n, Withdraw(n, exact, glob, book, list), c, id, 0)
    decreases |list|
  {
    if list != [] {
      var n1 := Tell(n, exact, glob, Lost(list[0]));
      var n2 := n1.(closed := n1.closed + set c | c in SpiesOf(book, list[0]));
      TellWrites(n, exact, glob, Lost(list[0]), c, id);
      assert Wrote(n, n2, c, id, 0);
      WithdrawWrites(n2, exact, glob, book, list[1..], c, id);
      WroteThen(n, n2, Withdraw(n2, exact, glob, book, list[1..]), c, id, 0, 0);
    }
  }

  lemma FarewellWrites(st: State, d: Client, exactKeys: seq<string>, globKeys: seq<string>, c: Client, id: RequestId)
    requires c in st.net.conn
    ensures Wrote(st.net, Farewell(st, d, exactKeys, globKeys), c, id, 0)
  {
    var n1 := Withdraw(st.net, st.exact, st.glob, st.book, Owned(st, d));
    var exact, glob := DropFrom(st.exact, d), DropFrom(st.glob, d);
    var n2 := TellAll(n1, exact, glob, Dropped(st.exact, exactKeys, d) + Dropped(st.glob, globKeys, d));
    WithdrawWrites(st.net, st.exact, st.glob, st.book, Owned(st, d), c, id);
    TellAllWrites(n1, exact, glob, Dropped(st.exact, exactKeys, d) + Dropped(st.glob, globKeys, d), c, id);
    TellWrites(n2, exact, glob, LostClient(d.id, NameOf(st, d)), c, id);
    WroteThen(st.net, n1, n2, c, id, 0, 0);
    WroteThen(st.net, n2, Farewell(st, d, exactKeys, globKeys), c, id, 0, 0);
  }

  lemma AnnounceWrites(st: State, s: Service, c: Client, id: RequestId)
    requires c in st.net.conn
    ensures Wrote(st.net, Announce(st, s), c, id, 0)
  {
    var news := NewService(s.client.id, s.name, s.ident);
    match Lookup(st.services, s.name, s.ident)
    case None =>
      TellWrites(st.net, st.exact, st.glob, news, c, id);
    case Some(d) =>
      var n1 := Tell(st.net, st.exact, st.glob, Lost(d));
      TellWrites(st.net, st.exact, st.glob, Lost(d), c, id);
      TellWrites(n1, st.exact, st.glob, news, c, id);
  }

  /** How often `c` is to get the reply to the pending request `id`: as a spy, and as the sender. */
  function Copies(st: State, c: Client, id: RequestId): nat
    requires id in st.table.pending
  {
    var e := st.table.pending[id];
    multiset(Contents(st.book, e.spies))[c] + if e.sender == c then 1 else 0
  }

  /** The replies to `id` that a step writes to `c`. */
  ghost function Emitted(st: State, step: Step, c: Client, id: RequestId): nat
    requires Enabled(st, step)
  {
    if !Open(st.net, c) then 0
    else
      match step
      case Requests(d, m) => if d == c && m.id == id && Target(st, m) == None then 1 else 0
      case Replies(_, i, _) => if i == id && id in st.table.pending then Copies(st, c, id) else 0
      case Fires(k) => if st.table.armed[k] == R.Alarm(id, c) && id in st.table.pending then 1 else 0
      case _ => 0
  }

  lemma RequestWrites(st: State, d: Client, m: Message, c: Client, id: RequestId)
    requires c in st.net.conn && m.Request? && Enabled(st, Step.Requests(d, m))
    ensures Wrote(st.net, RequestNet(st, d, m), c, id, Emitted(st, Step.Requests(d, m), c, id))
  {
    match Target(st, m)
    case None => SendWrites(st.net, d, Reply(m.id, Error(Refusal(st.services, m.name))), c, id);
    case Some(s) =>
      SendWrites(st.net, s.client, m, c, id);
      SendEachWrites(Send(st.net, s.client, m), SpiesOf(st.book, s), m, c, id);
  }

  lemma ReplyWrites(st: State, d: Client, i: RequestId, answer: Answer, c: Client, id: RequestId)
    requires c in st.net.conn && Enabled(st, Step.Replies(d, i, answer))
    ensures Wrote(st.net, ReplyNet(st, i, answer), c, id, Emitted(st, Step.Replies(d, i, answer), c, id))
  {
    if i in st.table.pending {
      var e := st.table.pending[i];
      var n1 := SendEach(st.net, Contents(st.book, e.spies), Reply(i, answer));
      SendEachWrites(st.net, Contents(st.book, e.spies), Reply(i, answer), c, id);
      SendWrites(n1, e.sender, Reply(i, answer), c, id);
    }
  }

  /** What any step writes, to a client that was there before it. */
  lemma StepWrites(st: State, step: Step, c: Client, id: RequestId)
    requires Enabled(st, step) && c in st.net.conn && c in st.names
    ensures Wrote(st.net, Apply(st, step).net, c, id, Emitted(st, step, c, id))
  {
    match step
    case Connects(d) => TellWrites(Admit(st, d).net, st.exact, st.glob, NewClient(d.id, ""), c, id);
    case Renames(d, name) => TellWrites(st.net, st.exact, st.glob, ClientName(d.id, name), c, id);
    case Registers(s, none) => AnnounceWrites(st, s, c, id);
    case Subscribes(d, p) =>
      if p !in Patterns(st, d) {
        var st' := Subscribing(st, d, p);
        TellWrites(st.net, st'.exact, st'.glob, NewSubscriber(p, d.id), c, id);
      }
    case Publishes(_, topic, payload) => DeliverWrites(st.net, Recipients(st.exact, st.glob, topic), topic, payload, c, id);
    case SpiesOn(_, _, _, _) =>
    case Requests(d, m) => RequestWrites(st, d, m, c, id);
    case Replies(d, i, answer) => ReplyWrites(st, d, i, answer, c, id);
    case Fires(k) =>
      var a := st.table.armed[k];
      SendWrites(st.net, a.client, Reply(a.id, Error(Timeout)), c, id);
    case Departs(d, exactKeys, globKeys) => FarewellWrites(st, d, exactKeys, globKeys, c, id);
  }
}
