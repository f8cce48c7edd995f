/**
 * The broker composed with its clients. What a client writes is a first-in,
 * first-out queue the broker takes messages from; what the broker writes is one
 * that the client reads. A client asking for something first installs a channel
 * for the reply, under the request's id, and then writes the request; its
 * receiving loop offers each reply it reads on the channel of that id, if there
 * is one. Only one value is ever taken from a channel, so a second offer would
 * block the loop for good.
 */
module Composition {
  import opened Objects
  import opened BrokerState
  import opened Traffic
  import R = Requests
  import Memory
  import Runs
  import L = ClientLib

  datatype Channel = Channel(ask: Message, sent: bool, offers: nat)

  datatype World = World(
    st: State,
    up: map<Client, seq<Message>>,                    // written by clients, not yet taken by the broker
    got: map<Client, nat>,                            // how many messages each client has read
    flight: map<Client, map<RequestId, Channel>>)     // requestsInFlight of each client

  const GENESIS := World(INIT, map[], map[], map[])

  function Up(w: World, c: Client): seq<Message> { if c in w.up then w.up[c] else [] }

  function Got(w: World, c: Client): nat { if c in w.got then w.got[c] else 0 }

  function Flight(w: World, c: Client): map<RequestId, Channel> { if c in w.flight then w.flight[c] else map[] }

  datatype Action =
    | Install(c: Client, m: Message)   // the channel for the reply to a new request
    | Write(c: Client, id: RequestId)  // the request itself
    | Inject(c: Client, m: Message)    // any other message, with any content: replies of any id included
    | Take(c: Client, step: Step)      // the broker handles the next message of a client
    | Broker(step: Step)               // what the broker does of its own accord
    | Recv(c: Client)                  // the client handles the next message it was sent

  /** Request ids are distinct over all clients and over the whole run. */
  ghost predicate NewId(w: World, id: RequestId) {
    forall d :: d in w.flight ==> id !in w.flight[d]
  }

  ghost predicate Can(w: World, a: Action) {
    match a
    case Install(c, m) => c in w.st.names && m.Request? && NewId(w, m.id)
    case Write(c, id) => id in Flight(w, c) && !w.flight[c][id].sent
    case Inject(c, m) => c in w.st.names && !m.Request?
    case Take(c, step) => Up(w, c) != [] && Connected(w.st, c) && Serves(step, c, Up(w, c)[0]) && Enabled(w.st, step)
    case Broker(step) =>
      && (step.Connects? || step.Renames? || step.Registers? || step.SpiesOn? || step.Fires? || step.Departs?)
      && Enabled(w.st, step)
    case Recv(c) => Got(w, c) < |Written(w.st, c)|
  }

  /** The receiving loop offers a reply on the channel of its id. */
  function Offer(f: map<RequestId, Channel>, m: Message): map<RequestId, Channel> {
    if m.Reply? && m.id in f then f[m.id := f[m.id].(offers := f[m.id].offers + 1)] else f
  }

  ghost function Do(w: World, a: Action): World
    requires Can(w, a)
  {
    match a
    case Install(c, m) => w.(flight := w.flight[c := Flight(w, c)[m.id := Channel(m, false, 0)]])
    case Write(c, id) =>
      var ch := w.flight[c][id];
      w.(up := w.up[c := Up(w, c) + [ch.ask]], flight := w.flight[c := w.flight[c][id := ch.(sent := true)]])
    case Inject(c, m) => w.(up := w.up[c := Up(w, c) + [m]])
    case Take(c, step) => w.(st := Apply(w.st, step), up := w.up[c := Up(w, c)[1..]])
    case Broker(step) => w.(st := Apply(w.st, step))
    case Recv(c) =>
      w.(got := w.got[c := Got(w, c) + 1],
         flight := if c in w.flight then w.flight[c := Offer(w.flight[c], Written(w.st, c)[Got(w, c)])] else w.flight)
  }

  ghost predicate Possible(w: World, run: seq<Action>)
    decreases |run|
  {
    run == [] || (Can(w, run[0]) && Possible(Do(w, run[0]), run[1..]))
  }

  ghost function After(w: World, run: seq<Action>): World
    requires Possible(w, run)
    decreases |run|
  {
    if run == [] then w else After(Do(w, run[0]), run[1..])
  }

  // ------------------------------------------------------ the client library

  /** A client's channels as its library has them. */
  function Offers(f: map<RequestId, Channel>): map<RequestId, nat> {
    map id | id in f :: f[id].offers
  }

  /** Installing a channel and writing the request are what the library does to send one. */
  lemma InstallAndWriteSend(w: World, c: Client, m: Message)
    requires Can(w, Install(c, m))
    ensures var w1 := Do(w, Install(c, m));
            && Can(w1, Write(c, m.id))
            && var w2 := Do(w1, Write(c, m.id));
               && m.id !in Offers(Flight(w, c)) && Offers(Flight(w2, c)) == L.Installing(Offers(Flight(w, c)), m.id)
               && Up(w2, c) == Up(w, c) + [m]
  {
  }

  /** Receiving is what the library does with a reply; other messages leave the channels alone. */
  lemma RecvHandlesReply(w: World, c: Client)
    requires Can(w, Recv(c))
    ensures var m := Written(w.st, c)[Got(w, c)];
            var f := Offers(Flight(Do(w, Recv(c)), c));
            f == if m.Reply? then L.Offering(Offers(Flight(w, c)), m.id) else Offers(Flight(w, c))
  {
  }

  // ------------------------------------------------- one step of the broker

  predicate Pends(st: State, c: Client, id: RequestId) {
    id in st.table.pending && st.table.pending[id].sender == c
  }

  /** The broker still owes `c` a reply to `id`, or has written it. */
  function Held(st: State, c: Client, id: RequestId): nat {
    (if Pends(st, c, id) then 1 else 0) + RepliesIn(Written(st, c), id)
  }

  /** The broker passes on a reply whose sender is itself a spy of the service it asked. */
  ghost predicate Overhears(st: State, step: Step, c: Client, id: RequestId) {
    && step.Replies? && step.id == id && Pends(st, c, id) && Open(st.net, c)
    && c in Contents(st.book, st.table.pending[id].spies)
  }

  ghost predicate AsksFor(step: Step, c: Client, id: RequestId) {
    step.Requests? && step.c == c && step.m.Request? && step.m.id == id
  }

  /** The table of a broker that no id was reused in while pending. */
  ghost predicate TableOk(t: R.Table) {
    R.Inv(t) && t.overwritten == []
  }

  /** A step in which no one asks under an id that is pending. */
  ghost predicate NoReuse(st: State, step: Step) {
    step.Requests? && step.m.Request? ==> step.m.id !in st.table.pending
  }

  lemma TableStays(st: State, step: Step)
    requires TableOk(st.table) && Enabled(st, step) && NoReuse(st, step)
    ensures TableOk(Apply(st, step).table)
  {
    Runs.StepKeepsTable(st, step);
    Runs.TableStep(st, step);
  }

  /** Who is pending after a step: who was before, or asks now. */
  lemma PendingStep(st: State, step: Step, d: Client, id: RequestId)
    requires Enabled(st, step) && Pends(Apply(st, step), d, id)
    ensures Pends(st, d, id) || AsksFor(step, d, id)
  {
    Runs.TableStep(st, step);
  }

  /** A timer that fires ends the request it was armed for, in the name of its sender. */
  lemma FiresForSender(st: State, k: R.Timer)
    requires TableOk(st.table) && k in st.table.armed
    ensures var a := st.table.armed[k]; a.id in st.table.pending && a == R.Alarm(a.id, st.table.pending[a.id].sender)
  {
    assert R.Exact(st.table) && R.Guarded(st.table);
  }

  /** What a step owes `c` for `id` and what it writes add up, while the connection is open. */
  lemma OwedStep(st: State, step: Step, c: Client, id: RequestId)
    requires Enabled(st, step) && TableOk(st.table) && NoReuse(st, step)
    requires forall d :: Pends(st, d, id) ==> d == c
    requires !Overhears(st, step, c, id)
    ensures var owed := if Pends(st, c, id) then 1 else 0;
            var owed' := if Pends(Apply(st, step), c, id) then 1 else 0;
            var asked := if AsksFor(step, c, id) then 1 else 0;
            owed' <= owed + asked && (Open(st.net, c) ==> owed' + Emitted(st, step, c, id) == owed + asked) &&
            owed' + Emitted(st, step, c, id) <= owed + asked
  {
    Runs.TableStep(st, step);
    match step
    case Replies(_, i, _) =>
      if i == id && id in st.table.pending {
        assert Pends(st, st.table.pending[id].sender, id);
      }
    case Fires(k) => FiresForSender(st, k);
    case _ =>
  }

  /**
   * What is held for `c` under `id` changes by being asked for, and only so;
   * but on a connection the broker has closed, replies are lost.
   */
  lemma HeldStep(st: State, step: Step, c: Client, id: RequestId)
    requires Enabled(st, step) && TableOk(st.table) && NoReuse(st, step) && c in st.net.conn && c in st.names
    requires forall d :: Pends(st, d, id) ==> d == c
    requires !Overhears(st, step, c, id)
    ensures var k := Held(st, c, id) + if AsksFor(step, c, id) then 1 else 0;
            Held(Apply(st, step), c, id) <= k && (Open(st.net, c) ==> Held(Apply(st, step), c, id) == k)
  {
    StepWrites(st, step, c, id);
    OwedStep(st, step, c, id);
  }

  // -------------------------------------------------------------- the invariant

  ghost predicate Known(w: World) {
    w.up.Keys <= w.st.names.Keys && w.flight.Keys <= w.st.names.Keys && w.got.Keys <= w.st.names.Keys
  }

  ghost predicate Live(w: World) {
    Memory.Closed(w.st) && TableOk(w.st.table) && Known(w)
  }

  /** No id is in flight at two clients. */
  ghost predicate Apart(w: World, id: RequestId) {
    forall c, d :: c in w.flight && d in w.flight && id in w.flight[c] && id in w.flight[d] ==> c == d
  }

  /** What is asked, pending or answered under an id was first put in flight. */
  ghost predicate Rooted(w: World, c: Client, id: RequestId) {
    && (AsksIn(Up(w, c), id) > 0 || Pends(w.st, c, id) ==> id in Flight(w, c))
    && (RepliesIn(Written(w.st, c), id) > 0 ==> !NewId(w, id))
  }

  /** A request is unsent, or in the queue to the broker, or pending there, or its reply has been written. */
  function Tokens(w: World, c: Client, id: RequestId): nat
    requires id in Flight(w, c)
  {
    (if w.flight[c][id].sent then 0 else 1) + AsksIn(Up(w, c), id) + Held(w.st, c, id)
  }

  /** ... never two of these at once, and always one while the connection is open. */
  ghost predicate Single(w: World, c: Client, id: RequestId) {
    id in Flight(w, c) ==> Tokens(w, c, id) <= 1 && (Open(w.st.net, c) ==> Tokens(w, c, id) == 1)
  }

  /** The client has offered on each channel just the replies it has read. */
  ghost predicate Offered(w: World, c: Client, id: RequestId) {
    && Got(w, c) <= |Written(w.st, c)|
    && (id in Flight(w, c) ==>
          && w.flight[c][id].ask.Request? && w.flight[c][id].ask.id == id
          && w.flight[c][id].offers == RepliesIn(Written(w.st, c)[..Got(w, c)], id))
  }

  ghost predicate Fine(w: World, c: Client, id: RequestId) {
    Rooted(w, c, id) && Single(w, c, id) && Offered(w, c, id)
  }

  ghost predicate Inv(w: World) {
    && Live(w)
    && (forall id :: Apart(w, id))
    && (forall c, id :: c in w.st.names ==> Fine(w, c, id))
  }

  /** The step of the broker that an action makes, if any. */
  predicate Moves(a: Action) { a.Take? || a.Broker? }

  /** A reply passed on in this action goes to the issuer as a spy too. */
  ghost predicate Doubles(w: World, a: Action) {
    Moves(a) && exists c, id :: c in w.st.names && Overhears(w.st, a.step, c, id)
  }

  // What the clients do on their own.

  lemma InstallKeeps(w: World, c: Client, m: Message, d: Client, id: RequestId)
    requires Can(w, Install(c, m)) && Fine(w, d, id)
    ensures Fine(Do(w, Install(c, m)), d, id)
  {
    var w' := Do(w, Install(c, m));
    if d == c && id == m.id {
      assert id !in Flight(w, c);
      PrefixReplies(Written(w.st, c), Got(w, c), id);
    } else {
      assert id in Flight(w', d) <==> id in Flight(w, d);
      if !NewId(w, id) {
        var x :| x in w.flight && id in w.flight[x];
        assert x in w'.flight && id in w'.flight[x];
      }
    }
  }

  lemma PrefixReplies(ms: seq<Message>, n: nat, id: RequestId)
    requires n <= |ms|
    ensures RepliesIn(ms[..n], id) <= RepliesIn(ms, id)
  {
    CountConcat(ms[..n], ms[n..], id);
    assert ms == ms[..n] + ms[n..];
  }

  lemma WriteKeepsRooted(w: World, c: Client, i: RequestId, d: Client, id: RequestId)
    requires Can(w, Write(c, i)) && Rooted(w, d, id) && Offered(w, c, i)
    ensures Rooted(Do(w, Write(c, i)), d, id)
  {
    CountOne(Up(w, c), w.flight[c][i].ask, id);
    SameFlights(w, Do(w, Write(c, i)), id);
  }

  lemma WriteKeeps(w: World, c: Client, i: RequestId, d: Client, id: RequestId)
    requires Can(w, Write(c, i)) && Fine(w, d, id) && Fine(w, c, i)
    ensures Fine(Do(w, Write(c, i)), d, id)
  {
    WriteKeepsRooted(w, c, i, d, id);
    CountOne(Up(w, c), w.flight[c][i].ask, id);
  }

  lemma InjectKeeps(w: World, c: Client, m: Message, d: Client, id: RequestId)
    requires Can(w, Inject(c, m)) && Fine(w, d, id)
    ensures Fine(Do(w, Inject(c, m)), d, id)
  {
    CountOne(Up(w, c), m, id);
  }

  lemma RecvKeepsOffered(w: World, c: Client, d: Client, id: RequestId)
    requires Can(w, Recv(c)) && Offered(w, d, id)
    ensures Offered(Do(w, Recv(c)), d, id)
  {
    var n := Got(w, c);
    var ms := Written(w.st, c);
    CountOne(ms[..n], ms[n], id);
    assert ms[..n + 1] == ms[..n] + [ms[n]];
  }

  lemma RecvKeepsFlight(w: World, c: Client, d: Client, id: RequestId)
    requires Can(w, Recv(c))
    ensures var w' := Do(w, Recv(c));
            && w'.st == w.st && w'.up == w.up && (id in Flight(w', d) <==> id in Flight(w, d))
            && (id in Flight(w, d) ==> w'.flight[d][id].sent == w.flight[d][id].sent)
  {
  }

  lemma RecvKeepsSingle(w: World, c: Client, d: Client, id: RequestId)
    requires Can(w, Recv(c)) && Single(w, d, id)
    ensures Single(Do(w, Recv(c)), d, id)
  {
    RecvKeepsFlight(w, c, d, id);
  }

  lemma RecvKeeps(w: World, c: Client, d: Client, id: RequestId)
    requires Can(w, Recv(c)) && Fine(w, d, id)
    ensures Fine(Do(w, Recv(c)), d, id)
  {
    RecvKeepsOffered(w, c, d, id);
    RecvKeepsSingle(w, c, d, id);
    SameFlights(w, Do(w, Recv(c)), id);
  }

  lemma SameFlights(w: World, w': World, id: RequestId)
    requires forall x :: x in w.flight ==> x in w'.flight && w.flight[x].Keys == w'.flight[x].Keys
    ensures !NewId(w, id) ==> !NewId(w', id)
  {
  }

  // What the broker does.

  /** A request that the broker takes is under an id that is not pending. */
  lemma TakenIsNew(w: World, c: Client, step: Step)
    requires Can(w, Take(c, step)) && (step.Requests? ==> Fine(w, c, step.m.id))
    requires step.Requests? ==> Apart(w, step.m.id) && forall x :: Pends(w.st, x, step.m.id) ==> step.m.id in Flight(w, x)
    ensures NoReuse(w.st, step)
  {
    if step.Requests? {
      var id := step.m.id;
      assert AsksIn(Up(w, c), id) > 0 && Tokens(w, c, id) <= 1;
      assert id in w.st.table.pending ==> Pends(w.st, w.st.table.pending[id].sender, id);
    }
  }

  /** The queue of `d` loses a request under `id` exactly when the broker takes one. */
  lemma QueueStep(w: World, a: Action, d: Client, id: RequestId)
    requires Can(w, a) && Moves(a)
    ensures AsksIn(Up(Do(w, a), d), id) + (if a.Take? && AsksFor(a.step, d, id) then 1 else 0) == AsksIn(Up(w, d), id)
    ensures a.Broker? ==> !AsksFor(a.step, d, id)
    ensures a.Take? && AsksFor(a.step, d, id) ==> a.c == d
  {
  }

  lemma MoveLeaves(w: World, a: Action)
    requires Can(w, a) && Moves(a)
    ensures Do(w, a).flight == w.flight && Do(w, a).got == w.got && Do(w, a).st == Apply(w.st, a.step)
  {
  }

  lemma MoveKeepsSingle(w: World, a: Action, d: Client, id: RequestId)
    requires Can(w, a) && Moves(a) && TableOk(w.st.table) && NoReuse(w.st, a.step)
    requires d in w.st.names && d in w.st.net.conn && Single(w, d, id)
    requires id in Flight(w, d) ==> forall x :: Pends(w.st, x, id) ==> x == d
    requires !Overhears(w.st, a.step, d, id)
    ensures Single(Do(w, a), d, id)
  {
    if id in Flight(w, d) {
      var w' := Do(w, a);
      QueueStep(w, a, d, id);
      HeldStep(w.st, a.step, d, id);
      StepWrites(w.st, a.step, d, id);
      MoveLeaves(w, a);
      assert Open(w'.st.net, d) ==> Open(w.st.net, d);
    }
  }

  lemma MoveKeepsOffered(w: World, a: Action, d: Client, id: RequestId)
    requires Can(w, a) && Moves(a) && d in w.st.names && d in w.st.net.conn && Offered(w, d, id)
    ensures Offered(Do(w, a), d, id)
  {
    var w' := Do(w, a);
    StepWrites(w.st, a.step, d, id);
    var n := Got(w, d);
    assert Written(w.st, d) <= Written(w'.st, d);
    assert Written(w'.st, d)[..n] == Written(w.st, d)[..n];
  }

  lemma EmittedFor(st: State, step: Step, d: Client, id: RequestId)
    requires Enabled(st, step) && Emitted(st, step, d, id) > 0
    ensures AsksFor(step, d, id) || (id in st.table.pending && Pends(st, st.table.pending[id].sender, id))
  {
  }

  lemma MoveKeepsAnswered(w: World, a: Action, d: Client, id: RequestId)
    requires Can(w, a) && Moves(a) && d in w.st.names && d in w.st.net.conn
    requires RepliesIn(Written(w.st, d), id) > 0 ==> !NewId(w, id)
    requires AsksFor(a.step, d, id) ==> id in Flight(w, d)
    requires forall x :: Pends(w.st, x, id) ==> id in Flight(w, x)
    ensures RepliesIn(Written(Do(w, a).st, d), id) > 0 ==> !NewId(w, id)
  {
    StepWrites(w.st, a.step, d, id);
    if Emitted(w.st, a.step, d, id) > 0 {
      EmittedFor(w.st, a.step, d, id);
    }
  }

  lemma MoveKeepsRooted(w: World, a: Action, d: Client, id: RequestId)
    requires Can(w, a) && Moves(a) && d in w.st.names && d in w.st.net.conn && Rooted(w, d, id)
    requires forall x :: Pends(w.st, x, id) ==> id in Flight(w, x)
    ensures Rooted(Do(w, a), d, id)
  {
    QueueStep(w, a, d, id);
    MoveLeaves(w, a);
    if Pends(Do(w, a).st, d, id) {
      PendingStep(w.st, a.step, d, id);
    }
    MoveKeepsAnswered(w, a, d, id);
  }

  /** Nothing has been written to a newcomer but what tells of its own arrival, and it has asked for nothing. */
  lemma NewcomerIsNew(w: World, c: Client, id: RequestId)
    requires Memory.Closed(w.st) && w.up.Keys <= w.st.names.Keys && Can(w, Broker(Connects(c)))
    ensures var w' := Do(w, Broker(Connects(c)));
            && Up(w', c) == [] && !Pends(w'.st, c, id) && RepliesIn(Written(w'.st, c), id) == 0
            && w'.flight == w.flight && w'.got == w.got
  {
    TellWrites(Admit(w.st, c).net, w.st.exact, w.st.glob, NewClient(c.id, ""), c, id);
    Runs.TableStep(w.st, Connects(c));
  }

  lemma NewIsFine(w: World, c: Client, id: RequestId)
    requires Up(w, c) == [] && !Pends(w.st, c, id) && RepliesIn(Written(w.st, c), id) == 0
    requires c !in w.flight && c !in w.got
    ensures Fine(w, c, id)
  {
  }

  lemma NewcomerIsFine(w: World, c: Client, id: RequestId)
    requires Live(w) && Can(w, Broker(Connects(c)))
    ensures Fine(Do(w, Broker(Connects(c))), c, id)
  {
    NewcomerIsNew(w, c, id);
    NewIsFine(Do(w, Broker(Connects(c))), c, id);
  }

  lemma NamesStep(st: State, step: Step)
    requires Enabled(st, step)
    ensures Apply(st, step).names.Keys == st.names.Keys + match step case Connects(c) => {c} case _ => {}
  {
    match step
    case Subscribes(_, _) =>
    case SpiesOn(_, _, _, _) =>
    case _ =>
  }

  lemma SendersKnown(st: State)
    requires Memory.Closed(st)
    ensures forall id :: id in st.table.pending ==> st.table.pending[id].sender in st.names
    ensures st.names.Keys == st.net.conn.Keys
  {
  }

  lemma PendersAreKnown(w: World, id: RequestId)
    requires id in w.st.table.pending ==> w.st.table.pending[id].sender in w.st.names
    requires Apart(w, id) && forall c :: c in w.st.names ==> Fine(w, c, id)
    ensures forall x :: Pends(w.st, x, id) ==> x in w.st.names && id in Flight(w, x)
    ensures forall x, y :: Pends(w.st, x, id) && id in Flight(w, y) ==> x == y
  {
    if id in w.st.table.pending {
      assert Fine(w, w.st.table.pending[id].sender, id);
    }
  }

  lemma MoveKeepsFine(w: World, a: Action, d: Client, id: RequestId)
    requires Inv(w) && Can(w, a) && Moves(a) && NoReuse(w.st, a.step) && !Doubles(w, a) && d in w.st.names
    ensures Fine(Do(w, a), d, id)
  {
    assert Fine(w, d, id) && Apart(w, id);
    SendersKnown(w.st);
    PendersAreKnown(w, id);
    MoveKeepsSingle(w, a, d, id);
    MoveKeepsOffered(w, a, d, id);
    MoveKeepsRooted(w, a, d, id);
  }

  lemma MoveIsNew(w: World, a: Action)
    requires Inv(w) && Can(w, a) && Moves(a)
    ensures NoReuse(w.st, a.step)
  {
    if a.Take? && a.step.Requests? {
      assert Apart(w, a.step.m.id);
      SendersKnown(w.st);
      PendersAreKnown(w, a.step.m.id);
      assert Fine(w, a.c, a.step.m.id);
      TakenIsNew(w, a.c, a.step);
    }
  }

  lemma MoveKeeps(w: World, a: Action)
    requires Inv(w) && Can(w, a) && Moves(a) && !Doubles(w, a)
    ensures Inv(Do(w, a))
  {
    var w' := Do(w, a);
    MoveIsNew(w, a);
    TableStays(w.st, a.step);
    Runs.StepKeepsMemory(w.st, a.step);
    NamesStep(w.st, a.step);
    forall id
      ensures Apart(w', id)
    {
      assert Apart(w, id);
    }
    forall c, id | c in w'.st.names
      ensures Fine(w', c, id)
    {
      if c in w.st.names {
        MoveKeepsFine(w, a, c, id);
      } else {
        NewcomerIsFine(w, c, id);
      }
    }
  }

  lemma OwnKeepsFine(w: World, a: Action, c: Client, id: RequestId)
    requires Can(w, a) && !Moves(a) && Fine(w, c, id)
    requires a.Write? ==> Fine(w, a.c, a.id)
    ensures Fine(Do(w, a), c, id)
  {
    match a
    case Install(d, m) => InstallKeeps(w, d, m, c, id);
    case Write(d, i) => WriteKeeps(w, d, i, c, id);
    case Inject(d, m) => InjectKeeps(w, d, m, c, id);
    case Recv(d) => RecvKeeps(w, d, c, id);
  }

  lemma OwnKeepsApart(w: World, a: Action, id: RequestId)
    requires Can(w, a) && !Moves(a) && Apart(w, id)
    ensures Apart(Do(w, a), id)
  {
  }

  lemma KeysStay<T>(m: map<Client, T>, known: set<Client>, c: Client, x: T)
    requires m.Keys <= known && c in known
    ensures m[c := x].Keys <= known
  {
  }

  lemma OwnKeepsKnown(w: World, a: Action)
    requires Known(w) && Can(w, a) && !Moves(a) && w.st.names.Keys == w.st.net.conn.Keys
    ensures Known(Do(w, a))
  {
    var known := w.st.names.Keys;
    match a
    case Install(c, m) => KeysStay(w.flight, known, c, Flight(w, c)[m.id := Channel(m, false, 0)]);
    case Write(c, id) =>
      assert c in w.flight;
      KeysStay(w.up, known, c, Up(w, c) + [w.flight[c][id].ask]);
      KeysStay(w.flight, known, c, w.flight[c][id := w.flight[c][id].(sent := true)]);
    case Inject(c, m) => KeysStay(w.up, known, c, Up(w, c) + [m]);
    case Recv(c) =>
      assert c in w.st.net.conn;
      KeysStay(w.got, known, c, Got(w, c) + 1);
  }

  lemma OwnKeepsLive(w: World, a: Action)
    requires Live(w) && Can(w, a) && !Moves(a)
    ensures Live(Do(w, a))
  {
    SendersKnown(w.st);
    OwnKeepsKnown(w, a);
  }

  lemma OwnKeeps(w: World, a: Action)
    requires Inv(w) && Can(w, a) && !Moves(a)
    ensures Inv(Do(w, a))
  {
    OwnKeepsLive(w, a);
    forall id
      ensures Apart(Do(w, a), id)
    {
      OwnKeepsApart(w, a, id);
    }
    forall c, id | c in Do(w, a).st.names
      ensures Fine(Do(w, a), c, id)
    {
      OwnKeepsFine(w, a, c, id);
    }
  }

  lemma ActionKeeps(w: World, a: Action)
    requires Inv(w) && Can(w, a) && !Doubles(w, a)
    ensures Inv(Do(w, a))
  {
    if Moves(a) {
      MoveKeeps(w, a);
    } else {
      OwnKeeps(w, a);
    }
  }

  // ------------------------------------------------------------------ theorems

  /** In no action of the run is a reply passed on to its requester as to a spy. */
  ghost predicate NeverDoubles(w: World, run: seq<Action>)
    requires Possible(w, run)
    decreases |run|
  {
    run == [] || (!Doubles(w, run[0]) && NeverDoubles(Do(w, run[0]), run[1..]))
  }

  lemma {:induction false} RunKeeps(w: World, run: seq<Action>)
    requires Inv(w) && Possible(w, run) && NeverDoubles(w, run)
    ensures Inv(After(w, run))
    decreases |run|
  {
    if run != [] {
      ActionKeeps(w, run[0]);
      RunKeeps(Do(w, run[0]), run[1..]);
    }
  }

  lemma GenesisInv()
    ensures Inv(GENESIS)
  {
    Runs.InitInv();
  }

  /** At most one reply to `id` has been written to its requester, so at most one value offered on its channel. */
  ghost predicate AnsweredOnce(w: World, c: Client, id: RequestId) {
    id in Flight(w, c) ==> RepliesIn(Written(w.st, c), id) <= 1 && w.flight[c][id].offers <= 1
  }

  lemma FineIsOnce(w: World, c: Client, id: RequestId)
    requires Fine(w, c, id)
    ensures AnsweredOnce(w, c, id)
  {
    PrefixReplies(Written(w.st, c), Got(w, c), id);
  }

  /**
   * Over every run of the broker and its clients in which no reply is doubled:
   * no channel is offered a second value, and an id is in flight at one client only.
   */
  lemma AtMostOneReply(run: seq<Action>, c: Client, id: RequestId)
    requires Possible(GENESIS, run) && NeverDoubles(GENESIS, run) && c in After(GENESIS, run).st.names
    ensures AnsweredOnce(After(GENESIS, run), c, id)
    ensures Apart(After(GENESIS, run), id)
  {
    GenesisInv();
    RunKeeps(GENESIS, run);
    FineIsOnce(After(GENESIS, run), c, id);
  }

  // The condition is exact: a doubled reply shows for ever.

  /** Two replies to a request of `c` have been written to `c`. */
  ghost predicate Twice(w: World, c: Client, id: RequestId) {
    c in w.st.names && c in w.st.net.conn && id in Flight(w, c) && RepliesIn(Written(w.st, c), id) >= 2
  }

  lemma TwiceStays(w: World, a: Action, c: Client, id: RequestId)
    requires Can(w, a) && Twice(w, c, id)
    ensures Twice(Do(w, a), c, id)
  {
    if Moves(a) {
      StepWrites(w.st, a.step, c, id);
      NamesStep(w.st, a.step);
    }
  }

  lemma {:induction false} TwiceLasts(w: World, run: seq<Action>, c: Client, id: RequestId)
    requires Possible(w, run) && Twice(w, c, id)
    ensures Twice(After(w, run), c, id)
    decreases |run|
  {
    if run != [] {
      TwiceStays(w, run[0], c, id);
      TwiceLasts(Do(w, run[0]), run[1..], c, id);
    }
  }

  lemma DoubleIsTwice(w: World, a: Action, c: Client, id: RequestId)
    requires Can(w, a) && Moves(a) && Fine(w, c, id) && c in w.st.names && c in w.st.net.conn
    requires Overhears(w.st, a.step, c, id)
    ensures Twice(Do(w, a), c, id)
  {
    StepWrites(w.st, a.step, c, id);
    NamesStep(w.st, a.step);
    assert Copies(w.st, c, id) >= 2;
  }

  lemma DoublesNow(w: World, a: Action) returns (c: Client, id: RequestId)
    requires Inv(w) && Can(w, a) && Doubles(w, a)
    ensures Twice(Do(w, a), c, id)
  {
    c, id :| c in w.st.names && Overhears(w.st, a.step, c, id);
    SendersKnown(w.st);
    assert Fine(w, c, id);
    DoubleIsTwice(w, a, c, id);
  }

  lemma {:induction false} DoublingShows(w: World, run: seq<Action>) returns (c: Client, id: RequestId)
    requires Inv(w) && Possible(w, run) && !NeverDoubles(w, run)
    ensures Twice(After(w, run), c, id)
    decreases |run|
  {
    if Doubles(w, run[0]) {
      c, id := DoublesNow(w, run[0]);
      TwiceLasts(Do(w, run[0]), run[1..], c, id);
    } else {
      ActionKeeps(w, run[0]);
      c, id := DoublingShows(Do(w, run[0]), run[1..]);
    }
  }

  ghost predicate AllAnsweredOnce(w: World) {
    forall c, id :: c in w.st.names ==> AnsweredOnce(w, c, id)
  }

  lemma TwiceIsNotOnce(w: World, c: Client, id: RequestId)
    requires Twice(w, c, id)
    ensures !AllAnsweredOnce(w)
  {
    assert !AnsweredOnce(w, c, id);
  }

  /**
   * Every request of every client is answered at most once if and only if no
   * reply was ever passed on to a requester that spied on the service it asked.
   */
  lemma OnceIffNeverDoubles(run: seq<Action>)
    requires Possible(GENESIS, run)
    ensures NeverDoubles(GENESIS, run) <==> AllAnsweredOnce(After(GENESIS, run))
  {
    if NeverDoubles(GENESIS, run) {
      forall c, id | c in After(GENESIS, run).st.names
        ensures AnsweredOnce(After(GENESIS, run), c, id)
      {
        AtMostOneReply(run, c, id);
      }
    } else {
      GenesisInv();
      var c, id := DoublingShows(GENESIS, run);
      TwiceIsNotOnce(After(GENESIS, run), c, id);
    }
  }

  // Replies and channels, over every run, doubled replies or not.

  /** A channel is kept under the id of its request. */
  ghost predicate Labelled(w: World, c: Client, id: RequestId) {
    id in Flight(w, c) ==> w.flight[c][id].ask.Request? && w.flight[c][id].ask.id == id
  }

  /** The part of the invariant that every run keeps. */
  ghost predicate Grounded(w: World) {
    && Memory.Closed(w.st)
    && w.up.Keys <= w.st.names.Keys && w.flight.Keys <= w.st.names.Keys
    && (forall id :: Apart(w, id))
    && (forall c, id :: c in w.st.names ==> Rooted(w, c, id) && Labelled(w, c, id))
  }

  lemma PendersInFlight(w: World, id: RequestId)
    requires id in w.st.table.pending ==> w.st.table.pending[id].sender in w.st.names
    requires forall c :: c in w.st.names ==> Rooted(w, c, id)
    ensures forall x :: Pends(w.st, x, id) ==> id in Flight(w, x)
  {
    if id in w.st.table.pending {
      assert Rooted(w, w.st.table.pending[id].sender, id);
    }
  }

  lemma MoveStaysRooted(w: World, a: Action, c: Client, id: RequestId)
    requires Grounded(w) && Can(w, a) && Moves(a) && c in Do(w, a).st.names
    ensures Rooted(Do(w, a), c, id)
  {
    NamesStep(w.st, a.step);
    if c in w.st.names {
      SendersKnown(w.st);
      PendersInFlight(w, id);
      assert Rooted(w, c, id);
      MoveKeepsRooted(w, a, c, id);
    } else {
      NewcomerIsNew(w, c, id);
    }
  }

  lemma OwnStaysRooted(w: World, a: Action, c: Client, id: RequestId)
    requires Can(w, a) && !Moves(a) && Rooted(w, c, id)
    requires a.Write? ==> Labelled(w, a.c, a.id)
    ensures Rooted(Do(w, a), c, id)
  {
    var w' := Do(w, a);
    FlightsGrow(w, a, id);
    match a
    case Write(d, i) => CountOne(Up(w, d), w.flight[d][i].ask, id);
    case Inject(d, m) => CountOne(Up(w, d), m, id);
    case _ =>
  }

  lemma FlightsGrow(w: World, a: Action, id: RequestId)
    requires Can(w, a)
    ensures forall c :: id in Flight(w, c) ==> id in Flight(Do(w, a), c)
    ensures !NewId(w, id) ==> !NewId(Do(w, a), id)
  {
    if !NewId(w, id) {
      var d :| d in w.flight && id in w.flight[d];
      assert id in Flight(Do(w, a), d);
    }
  }

  lemma StaysLabelled(w: World, a: Action, c: Client, id: RequestId)
    requires Can(w, a) && Labelled(w, c, id)
    ensures Labelled(Do(w, a), c, id)
  {
  }

  lemma MoveStaysGrounded(w: World, a: Action)
    requires Grounded(w) && Can(w, a) && Moves(a)
    ensures Grounded(Do(w, a))
  {
    Runs.StepKeepsMemory(w.st, a.step);
    NamesStep(w.st, a.step);
    forall id
      ensures Apart(Do(w, a), id)
    {
      assert Apart(w, id);
    }
    forall c, id | c in Do(w, a).st.names
      ensures Rooted(Do(w, a), c, id) && Labelled(Do(w, a), c, id)
    {
      MoveStaysRooted(w, a, c, id);
      StaysLabelled(w, a, c, id);
    }
  }

  lemma OwnStaysGrounded(w: World, a: Action)
    requires Grounded(w) && Can(w, a) && !Moves(a)
    ensures Grounded(Do(w, a))
  {
    forall id
      ensures Apart(Do(w, a), id)
    {
      OwnKeepsApart(w, a, id);
    }
    forall c, id | c in Do(w, a).st.names
      ensures Rooted(Do(w, a), c, id) && Labelled(Do(w, a), c, id)
    {
      if a.Write? {
        assert a.c in w.st.names && Labelled(w, a.c, a.id);
      }
      OwnStaysRooted(w, a, c, id);
      StaysLabelled(w, a, c, id);
    }
  }

  lemma {:induction false} RunStaysGrounded(w: World, run: seq<Action>)
    requires Grounded(w) && Possible(w, run)
    ensures Grounded(After(w, run))
    ensures forall c, id :: id in Flight(w, c) ==> id in Flight(After(w, run), c)
    decreases |run|
  {
    if run != [] {
      var w1 := Do(w, run[0]);
      if Moves(run[0]) {
        MoveStaysGrounded(w, run[0]);
      } else {
        OwnStaysGrounded(w, run[0]);
      }
      forall c, id | id in Flight(w, c)
        ensures id in Flight(w1, c)
      {
        FlightsGrow(w, run[0], id);
      }
      RunStaysGrounded(w1, run[1..]);
    }
  }

  lemma GenesisIsGrounded()
    ensures Grounded(GENESIS)
  {
    Runs.InitMemory();
  }

  lemma WrittenAreKnown(w: World, c: Client, id: RequestId)
    requires Memory.Closed(w.st) && RepliesIn(Written(w.st, c), id) > 0
    ensures c in w.st.names
  {
  }

  lemma ChannelWasThere(w: World, w': World, c: Client, id: RequestId)
    requires Rooted(w, c, id) && RepliesIn(Written(w.st, c), id) > 0
    requires forall d :: id in Flight(w, d) ==> id in Flight(w', d)
    requires Apart(w', id) && id in Flight(w', c)
    ensures id in Flight(w, c)
  {
    var d :| d in w.flight && id in w.flight[d];
    assert id in Flight(w, d) && id in Flight(w', d);
  }

  /**
   * A reply finds its channel, over every run: when a reply to a request of `c`
   * has been written to `c`, then `c` had installed the channel by that time.
   * Whose request it is shows in the end, after `more`.
   */
  lemma RepliesFindChannels(run: seq<Action>, more: seq<Action>, c: Client, id: RequestId)
    requires Possible(GENESIS, run) && Possible(After(GENESIS, run), more)
    requires id in Flight(After(After(GENESIS, run), more), c)
    requires RepliesIn(Written(After(GENESIS, run).st, c), id) > 0
    ensures id in Flight(After(GENESIS, run), c)
  {
    var w := After(GENESIS, run);
    GenesisIsGrounded();
    RunStaysGrounded(GENESIS, run);
    RunStaysGrounded(w, more);
    WrittenAreKnown(w, c, id);
    ChannelWasThere(w, After(w, more), c, id);
  }

  /** Everything written has been read, and no timer is armed. */
  ghost predicate Quiescent(w: World) {
    && (forall c :: c in w.up ==> w.up[c] == [])
    && (forall c :: c in w.st.names ==> Got(w, c) == |Written(w.st, c)|)
    && w.st.table.armed == map[]
  }

  lemma RestIsOne(w: World, c: Client, id: RequestId)
    requires Fine(w, c, id) && id in Flight(w, c) && w.flight[c][id].sent && Open(w.st.net, c)
    requires Up(w, c) == [] && Got(w, c) == |Written(w.st, c)| && R.Guarded(w.st.table) && w.st.table.armed == map[]
    ensures w.flight[c][id].offers == 1
  {
    assert Written(w.st, c)[..Got(w, c)] == Written(w.st, c);
    assert !Pends(w.st, c, id);
  }

  /** When all is quiet, each request sent on a connection still open has been offered exactly one reply. */
  lemma ExactlyOneAtRest(run: seq<Action>, c: Client, id: RequestId)
    requires Possible(GENESIS, run) && NeverDoubles(GENESIS, run)
    requires var w := After(GENESIS, run);
             Quiescent(w) && id in Flight(w, c) && w.flight[c][id].sent && Open(w.st.net, c)
    ensures After(GENESIS, run).flight[c][id].offers == 1
  {
    GenesisInv();
    RunKeeps(GENESIS, run);
    var w := After(GENESIS, run);
    assert c in w.st.names && Fine(w, c, id);
    RestIsOne(w, c, id);
  }
}
