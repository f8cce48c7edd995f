/**
 * The broker itself: the fields of `Broker`, `client` and `service`, updated in
 * place by the handlers. The ghost field `st` is the state of module
 * `BrokerState` that the objects represent; each handler is proved to move it
 * by the function of the same handler there.
 */
module BrokerObject {
  import opened Seqs
  import opened Objects
  import opened Glob
  import opened Options
  import opened BrokerState
  import R = Requests
  import Memory
  import Runs
  import opened Spies

  lemma {:induction false} KeyIndexIs(list: seq<Service>, name: string, ident: string, i: nat)
    requires i <= |list| && forall j :: 0 <= j < i ==> Keyed(list[j]) != (name, ident)
    requires i < |list| ==> Keyed(list[i]) == (name, ident)
    ensures KeyIndex(list, name, ident) == i
  {
    if i > 0 {
      KeyIndexIs(list[1..], name, ident, i - 1);
    }
  }

  /** A new service is entered: all of a registration but its object. */
  function Entering(st: State, s: Service): State {
    st.(services := Store(st.services, s),
        owned := Joined(Detached(st, s), s),
        started := st.started || s.name == "cellaserv",
        crashed := st.crashed || Panics(st, s),
        net := Announce(st, s))
  }

  /** What that leaves, stage by stage in the order of the source. */
  lemma EnteringIs(st: State, st': State, s: Service)
    requires !st.crashed
    requires st' == st.(services := st'.services, owned := st'.owned, started := st'.started, crashed := st'.crashed,
                        net := st'.net)
    requires var d := Lookup(st.services, s.name, s.ident);
             && st'.services == Store(st.services, s)
             && st'.owned == Joined(Vacated(st.owned, d, s.name, s.ident), s)
             && st'.started == (st.started || s.name == "cellaserv")
             && st'.crashed == (st.started && s.name == "cellaserv")
             && st'.net == Entered(st.net, st.exact, st.glob, d, s, st'.crashed)
    ensures st' == Entering(st, s)
  {
  }

  /** Made and entered, a service is registered. */
  lemma RegisteringIs(st: State, s: Service, none: array<Client>)
    ensures Registering(st, s, none) == Entering(st.(book := Enrol(st.book, s, none)), s)
  {
  }

  /** The steps serve the messages in order, as far as they go. */
  ghost predicate ServesEach(steps: seq<Step>, c: Client, ms: seq<Message>) {
    |steps| <= |ms| && forall i :: 0 <= i < |steps| ==> Serves(steps[i], c, ms[i])
  }

  lemma ServesOneMore(steps: seq<Step>, c: Client, ms: seq<Message>, step: Step)
    requires ServesEach(steps, c, ms) && |steps| < |ms| && Serves(step, c, ms[|steps|])
    ensures ServesEach(steps + [step], c, ms)
  {
  }

  /** The run leads from `st` to the state `now`. */
  ghost predicate Came(st: State, run: seq<Step>, now: State) {
    Legal(st, run) && now == Exec(st, run)
  }

  lemma CameFirst(st: State, c: Client)
    requires Enabled(st, Connects(c))
    ensures Came(st, [Connects(c)], Connect(st, c))
    ensures var st' := Connect(st, c);
            Connected(st', c) && st'.names.Keys == st.names.Keys + {c} && st'.book == st.book && st'.crashed == st.crashed
  {
    assert [Connects(c)][1..] == [];
  }

  lemma CameNext(st: State, run: seq<Step>, now: State, step: Step)
    requires Came(st, run, now) && Enabled(now, step)
    ensures Came(st, run + [step], Apply(now, step))
  {
    Runs.LegalSnoc(st, run, step);
  }

  /** A client's messages are served and it leaves; a process that panics goes no further. */
  ghost predicate Served(steps: seq<Step>, c: Client, ms: seq<Message>, crashed: bool) {
    if crashed then ServesEach(steps, c, ms)
    else |steps| == |ms| + 1 && ServesEach(steps[..|ms|], c, ms) && steps[|ms|].Departs? && steps[|ms|].c == c
  }

  lemma ServedIs(steps: seq<Step>, c: Client, ms: seq<Message>, last: Step)
    requires ServesEach(steps, c, ms) && |steps| == |ms| && last.Departs? && last.c == c
    ensures Served(steps + [last], c, ms, false)
  {
    assert (steps + [last])[..|ms|] == steps;
  }

  /** The services and arrays that the book has come to know are among `made`. */
  ghost predicate NewIn(b: SpyBook, b': SpyBook, made: set<object>) {
    && (forall s :: s in b'.spies ==> s in b.spies || s in made)
    && (forall a :: a in b'.store ==> a in b.store || a in made)
  }

  function Made(step: Step): set<object> {
    if step.Registers? then {step.s, step.none} else {}
  }

  /** The step of a message changes neither who is connected nor who is known. */
  lemma ServingStays(st: State, step: Step, c: Client, m: Message)
    requires Enabled(st, step) && Serves(step, c, m)
    ensures Apply(st, step).clients == st.clients && Apply(st, step).names == st.names
    ensures NewIn(st.book, Apply(st, step).book, Made(step))
  {
    Runs.BookStep(st, step);
    match step
    case Subscribes(_, _) =>
    case _ =>
  }

  lemma NewInBoth(b: SpyBook, mid: SpyBook, b': SpyBook, made: set<object>, more: set<object>)
    requires NewIn(b, mid, made) && NewIn(mid, b', more)
    ensures NewIn(b, b', made + more)
  {
  }

  twostate lemma FreshUnion(new a: set<object>, new b: set<object>)
    requires fresh(a) && fresh(b)
    ensures fresh(a + b)
  {
  }

  function Recording(st: State, c: Client, p: string): State {
    st.(subscribes := st.subscribes[c := Patterns(st, c) + [p]],
        exact := if HasStar(p) then st.exact else AddTo(st.exact, p, c),
        glob := if HasStar(p) then AddTo(st.glob, p, c) else st.glob)
  }

  lemma SubscribingIs(st: State, c: Client, p: string)
    requires p !in Patterns(st, c)
    ensures Subscribing(st, c, p) == Emit(Recording(st, c, p), NewSubscriber(p, c.id))
  {
  }

  // The removal loop over a subscriber map, key by key.

  function DropKey(m: Subscribers, key: string, c: Client): Subscribers
    requires key in m
  {
    if c !in m[key] then m
    else if |m[key]| == 1 then m - {key}
    else m[key := OverwriteMatches(m[key], c)]
  }

  function DroppedAt(m: Subscribers, key: string, c: Client): seq<Event> {
    seq(multiset(Clients(m, key))[c], _ => LostSubscriber(key, c.id))
  }

  /** The keys still to be visited are as they were, the others as they will be. */
  ghost predicate PartlyDropped(m: Subscribers, rest: Subscribers, todo: set<string>, c: Client) {
    && (forall k :: k in todo && k in m ==> k in rest && rest[k] == m[k])
    && (forall k :: k !in todo ==>
          (k in rest <==> k in DropFrom(m, c)) && (k in rest ==> rest[k] == DropFrom(m, c)[k]))
    && (forall k :: k in rest ==> k in m)
  }

  lemma PartlyDroppedStep(m: Subscribers, rest: Subscribers, todo: set<string>, key: string, c: Client)
    requires key in m && key !in todo && PartlyDropped(m, rest, todo + {key}, c)
    ensures PartlyDropped(m, DropKey(rest, key, c), todo, c)
  {
  }

  lemma PartlyDroppedAll(m: Subscribers, rest: Subscribers, c: Client)
    requires PartlyDropped(m, rest, {}, c)
    ensures rest == DropFrom(m, c)
  {
  }

  lemma {:induction false} DroppedSnoc(m: Subscribers, keys: seq<string>, key: string, c: Client)
    ensures Dropped(m, keys + [key], c) == Dropped(m, keys, c) + DroppedAt(m, key, c)
  {
    if keys == [] {
      assert Dropped(m, [key], c) == DroppedAt(m, key, c) + Dropped(m, [], c);
    } else {
      assert (keys + [key])[1..] == keys[1..] + [key];
      DroppedSnoc(m, keys[1..], key, c);
    }
  }

  lemma RemoveSpyBacked(b: SpyBook, s: Service, c: Client)
    requires Memory.AllBacked(b) && s in b.spies
    ensures Memory.AllBacked(RemoveSpy(b, s, c))
    ensures RemoveSpy(b, s, c).spies.Keys == b.spies.Keys && RemoveSpy(b, s, c).store.Keys == b.store.Keys
  {
  }

  // The stages of a departure, in the order of the source.

  function Unsubscribed(n: Net, exact: Subscribers, glob: Subscribers, c: Client, exactKeys: seq<string>,
          globKeys: seq<string>): Net {
    TellAll(n, DropFrom(exact, c), DropFrom(glob, c), Dropped(exact, exactKeys, c) + Dropped(glob, globKeys, c))
  }

  /** The publishes of a departure, stage by stage. */
  function Parted(n: Net, exact: Subscribers, glob: Subscribers, book: SpyBook, c: Client, list: seq<Service>, name: string,
          exactKeys: seq<string>, globKeys: seq<string>): Net {
    Tell(Unsubscribed(Withdraw(n, exact, glob, book, list), exact, glob, c, exactKeys, globKeys),
         DropFrom(exact, c), DropFrom(glob, c), LostClient(c.id, name))
  }

  /** The fields that a departure leaves, gathered into one state. */
  lemma DepartIs(st: State, c: Client, exactKeys: seq<string>, globKeys: seq<string>)
    ensures Depart(st, c, exactKeys, globKeys) ==
            st.(clients := st.clients - {c.id},
                services := UnregisterAll(st.services, Owned(st, c)),
                exact := DropFrom(st.exact, c),
                glob := DropFrom(st.glob, c),
                book := RemoveSpies(st.book, Spying(st, c), c),
                net := Parted(st.net, st.exact, st.glob, st.book, c, Owned(st, c), NameOf(st, c), exactKeys, globKeys))
  {
  }

  /** What withdrawing each service of the list reads is known. */
  ghost predicate CanWithdraw(b: SpyBook, exact: Subscribers, glob: Subscribers, n: Net, list: seq<Service>) {
    Memory.CanPublish(exact, glob, n) && forall s :: s in list ==> s in b.spies && Memory.CanRead(b, b.spies[s], n)
  }

  lemma CanStillWithdraw(b: SpyBook, exact: Subscribers, glob: Subscribers, n: Net, n': Net, list: seq<Service>)
    requires CanWithdraw(b, exact, glob, n, list) && n'.conn.Keys == n.conn.Keys
    ensures CanWithdraw(b, exact, glob, n', list)
  {
    assert forall c :: c in n.conn ==> c in n'.conn;
  }

  // The folds of a departure, from index `i` of the list on: what a loop has still to do.

  function TellFrom(n: Net, exact: Subscribers, glob: Subscribers, es: seq<Event>, i: nat): Net
    requires i <= |es|
    decreases |es| - i
  {
    if i == |es| then n else TellFrom(Tell(n, exact, glob, es[i]), exact, glob, es, i + 1)
  }

  lemma {:induction false} TellFromIs(n: Net, exact: Subscribers, glob: Subscribers, es: seq<Event>, i: nat)
    requires i <= |es|
    ensures TellFrom(n, exact, glob, es, i) == TellAll(n, exact, glob, es[i..])
    decreases |es| - i
  {
    if i < |es| {
      assert es[i..][1..] == es[i + 1..];
      TellFromIs(Tell(n, exact, glob, es[i]), exact, glob, es, i + 1);
    }
  }

  function Disconnected(n: Net, list: seq<Client>): Net {
    n.(closed := n.closed + set c | c in list)
  }

  /** What a departure tells of one of the client's services, whose spies it disconnects. */
  function WithdrawOne(n: Net, exact: Subscribers, glob: Subscribers, book: SpyBook, s: Service): Net {
    Disconnected(Tell(n, exact, glob, Lost(s)), SpiesOf(book, s))
  }

  function WithdrawFrom(n: Net, exact: Subscribers, glob: Subscribers, book: SpyBook, list: seq<Service>, i: nat): Net
    requires i <= |list|
    decreases |list| - i
  {
    if i == |list| then n else WithdrawFrom(WithdrawOne(n, exact, glob, book, list[i]), exact, glob, book, list, i + 1)
  }

  function UnregisterFrom(services: Registry, list: seq<Service>, i: nat): Registry
    requires i <= |list|
    decreases |list| - i
  {
    if i == |list| then services else UnregisterFrom(Unregister(services, list[i]), list, i + 1)
  }

  lemma {:induction false} WithdrawFromIs(n: Net, exact: Subscribers, glob: Subscribers, book: SpyBook,
          list: seq<Service>, i: nat)
    requires i <= |list|
    ensures WithdrawFrom(n, exact, glob, book, list, i) == Withdraw(n, exact, glob, book, list[i..])
    decreases |list| - i
  {
    if i < |list| {
      assert list[i..][1..] == list[i + 1..];
      WithdrawFromIs(WithdrawOne(n, exact, glob, book, list[i]), exact, glob, book, list, i + 1);
    }
  }

  lemma {:induction false} UnregisterFromIs(services: Registry, list: seq<Service>, i: nat)
    requires i <= |list|
    ensures UnregisterFrom(services, list, i) == UnregisterAll(services, list[i..])
    decreases |list| - i
  {
    if i < |list| {
      assert list[i..][1..] == list[i + 1..];
      UnregisterFromIs(Unregister(services, list[i]), list, i + 1);
    }
  }

  class Broker {
    var clients: map<string, Client>          // mapClientIdToClient
    var services: Registry
    var subscriberMap: Subscribers
    var subscriberMatchMap: Subscribers
    var reqIds: map<RequestId, R.Entry>
    var timers: map<R.Timer, R.Alarm>         // timers that are armed
    var nextTimer: nat
    var started: bool                         // startedWithCellaserv is closed
    var crashed: bool                         // the process has panicked

    // What the client and service objects hold, and history.
    ghost var names: map<Client, string>
    ghost var owned: map<Client, seq<Service>>
    ghost var subscribes: map<Client, seq<string>>
    ghost var spying: map<Client, seq<Service>>
    ghost var net: Net
    ghost var book: SpyBook
    ghost var answers: seq<R.Final>
    ghost var overwritten: seq<R.Timer>

    ghost function Table(): R.Table
      reads this`reqIds, this`timers, this`nextTimer, this`answers, this`overwritten
    {
      R.Table(reqIds, timers, nextTimer, answers, overwritten)
    }

    /** The state that the broker and its objects represent. */
    ghost function St(): State
      reads this
    {
      State(clients, services, subscriberMap, subscriberMatchMap, Table(), started, crashed,
            names, owned, subscribes, spying, book, net)
    }

    ghost predicate NamesTied()
      reads this`names, names.Keys`name
    {
      forall c :: c in names ==> c.name == names[c]
    }

    ghost predicate OwnedTied()
      reads this`owned, owned.Keys`services
    {
      forall c :: c in owned ==> c.services == owned[c]
    }

    ghost predicate SubscribesTied()
      reads this`subscribes, subscribes.Keys`subscribes
    {
      forall c :: c in subscribes ==> c.subscribes == subscribes[c]
    }

    ghost predicate SpyingTied()
      reads this`spying, spying.Keys`spying
    {
      forall c :: c in spying ==> c.spying == spying[c]
    }

    ghost predicate NetTied()
      reads this`net, net.conn.Keys`conn, net.conn.Keys`closed
    {
      forall c :: c in net.conn ==> c.conn == net.conn[c] && c.closed == (c in net.closed)
    }

    ghost predicate SlicesTied()
      reads this`book, book.spies.Keys`spies
    {
      forall s :: s in book.spies ==> s.spies == book.spies[s]
    }

    ghost predicate ArraysTied()
      reads this`book, book.store.Keys
    {
      forall a :: a in book.store ==> a[..] == book.store[a]
    }

    ghost predicate ClientsTied()
      reads this`names, this`owned, this`subscribes, this`spying
      reads names.Keys`name, owned.Keys`services, subscribes.Keys`subscribes, spying.Keys`spying
    {
      NamesTied() && OwnedTied() && SubscribesTied() && SpyingTied()
    }

    /** What a departure leaves alone. */
    ghost function Apart(): (bool, bool, R.Table, map<Client, string>, Lists, map<Client, seq<string>>, Lists)
      reads this`started, this`crashed, this`reqIds, this`timers, this`nextTimer, this`answers, this`overwritten
      reads this`names, this`owned, this`subscribes, this`spying
    {
      (started, crashed, Table(), names, owned, subscribes, spying)
    }

    /** The objects hold what the ghost fields say. */
    ghost predicate Valid()
      reads this, names.Keys, owned.Keys, subscribes.Keys, spying.Keys, net.conn.Keys, book.spies.Keys, book.store.Keys
    {
      NetTied() && SlicesTied() && ArraysTied() && ClientsTied()
    }

    constructor ()
      ensures Valid() && St() == INIT
    {
      clients, services, subscriberMap, subscriberMatchMap := map[], map[], map[], map[];
      reqIds, timers, nextTimer := map[], map[], 0;
      started, crashed := false, false;
      names, owned, subscribes, spying := map[], map[], map[], map[];
      net, book := Net(map[], {}, []), SpyBook(map[], map[], map[]);
      answers, overwritten := [], [];
    }

    // --------------------------------------------------------------- sending

    method SendMessage(c: Client, m: Message)
      requires NetTied() && c in net.conn
      modifies this`net, c`conn
      ensures c.conn == old(c.conn) + if c.closed then [] else [m]
      ensures NetTied() && net == Send(old(net), c, m) && net.conn.Keys == old(net.conn.Keys)
    {
      if !c.closed {
        c.conn := c.conn + [m];
      }
      net := Send(net, c, m);
    }

    method SendToEach(to: seq<Client>, m: Message)
      requires NetTied() && forall c :: c in to ==> c in net.conn
      modifies this`net, net.conn.Keys`conn
      ensures NetTied() && net == SendEach(old(net), to, m) && net.conn.Keys == old(net.conn.Keys)
    {
      var i := 0;
      assert to[0..] == to;
      while i < |to|
        invariant 0 <= i <= |to|
        invariant NetTied() && net.conn.Keys == old(net.conn.Keys) && SendEach(net, to[i..], m) == SendEach(old(net), to, m)
      {
        SendMessage(to[i], m);
        assert to[i..][1..] == to[i + 1..];
        i := i + 1;
      }
    }

    /** The subscribers of a topic, collected from both maps as a set. */
    method Collect(topic: string) returns (subs: set<Client>)
      ensures subs == Recipients(subscriberMap, subscriberMatchMap, topic)
    {
      subs := {};
      var patterns := subscriberMatchMap.Keys;
      while patterns != {}
        invariant patterns <= subscriberMatchMap.Keys
        invariant forall c :: c in subs <==>
          exists p :: p in subscriberMatchMap && p !in patterns && Match(p, topic) && c in subscriberMatchMap[p]
        decreases patterns
      {
        var p :| p in patterns;
        patterns := patterns - {p};
        if Match(p, topic) {
          ghost var before := subs;
          var list := subscriberMatchMap[p];
          var i := 0;
          while i < |list|
            invariant 0 <= i <= |list|
            invariant forall c :: c in subs <==> c in before || c in list[..i]
          {
            subs := subs + {list[i]};
            i := i + 1;
          }
        }
      }
      if topic in subscriberMap {
        ghost var before := subs;
        var list := subscriberMap[topic];
        var i := 0;
        while i < |list|
          invariant 0 <= i <= |list|
          invariant forall c :: c in subs <==> c in before || c in list[..i]
        {
          subs := subs + {list[i]};
          i := i + 1;
        }
      }
    }

    /** Write `m` to each client of a set. */
    method SendToSet(to: set<Client>, m: Message)
      requires NetTied() && to <= net.conn.Keys
      modifies this`net, net.conn.Keys`conn
      ensures NetTied() && net == Deliver(old(net), to, m)
    {
      var todo := to;
      while todo != {}
        invariant todo <= to && net == old(net)
        invariant forall c :: c in net.conn ==> c.conn == if c in to && c !in todo && !c.closed then old(c.conn) + [m] else old(c.conn)
        decreases todo
      {
        var c :| c in todo;
        todo := todo - {c};
        if !c.closed {
          c.conn := c.conn + [m];
        }
      }
      net := Deliver(net, to, m);
    }

    method Publish(topic: string, payload: Payload)
      requires NetTied()
      requires Memory.CanPublish(subscriberMap, subscriberMatchMap, net)
      modifies this`net, net.conn.Keys`conn
      ensures NetTied()
      ensures net == Deliver(old(net), Recipients(subscriberMap, subscriberMatchMap, topic), Message.Publish(topic, payload))
      ensures net.conn.Keys == old(net.conn.Keys)
    {
      var subs := Collect(topic);
      SendToSet(subs, Message.Publish(topic, payload));
    }

    /** `cellaservPublish`: one of the broker's own events. */
    method PublishEvent(e: Event)
      requires NetTied()
      requires Memory.CanPublish(subscriberMap, subscriberMatchMap, net)
      modifies this`net, net.conn.Keys`conn
      ensures NetTied() && net.conn.Keys == old(net.conn.Keys)
      ensures net == Tell(old(net), subscriberMap, subscriberMatchMap, e)
    {
      net := net.(log := net.log + [e]);
      Publish(Topic(e), Json(e));
    }

    /** `PublishEvent`, as a move of the whole state. */
    method EmitEvent(e: Event)
      requires NetTied()
      requires Memory.CanPublish(subscriberMap, subscriberMatchMap, net)
      modifies this`net, net.conn.Keys`conn
      ensures NetTied() && St() == Emit(old(St()), e)
    {
      PublishEvent(e);
    }

    method ReadSlice(sl: Slice) returns (list: seq<Client>)
      requires ArraysTied() && Backed(book, sl)
      ensures list == Contents(book, sl)
    {
      list := sl.arr[..sl.len];
      assert sl.arr[..] == book.store[sl.arr];
      assert list == sl.arr[..][..sl.len];
    }

    // --------------------------------------------------------------- clients

    method StoreLists(c: Client)
      requires OwnedTied() && SubscribesTied() && SpyingTied()
      requires c.services == [] && c.subscribes == [] && c.spying == []
      modifies this`owned, this`subscribes, this`spying
      ensures owned == old(owned)[c := []] && subscribes == old(subscribes)[c := []] && spying == old(spying)[c := []]
      ensures OwnedTied() && SubscribesTied() && SpyingTied()
    {
      owned, subscribes, spying := owned[c := []], subscribes[c := []], spying[c := []];
    }

    /** Store the client in the map of handled clients. */
    method StoreClient(c: Client)
      requires NamesTied() && OwnedTied() && SubscribesTied() && SpyingTied() && NetTied()
      requires c.name == "" && c.services == [] && c.subscribes == [] && c.spying == [] && c.conn == []
      requires c.closed == (c in net.closed)
      modifies this`clients, this`names, this`owned, this`subscribes, this`spying, this`net
      ensures clients == old(clients)[c.id := c] && names == old(names)[c := ""] && owned == old(owned)[c := []]
      ensures subscribes == old(subscribes)[c := []] && spying == old(spying)[c := []]
      ensures net == old(net).(conn := old(net).conn[c := []])
      ensures NamesTied() && OwnedTied() && SubscribesTied() && SpyingTied() && NetTied()
    {
      StoreLists(c);
      clients, names := clients[c.id := c], names[c := ""];
      net := net.(conn := net.conn[c := []]);
    }

    method MakeClient(id: string) returns (c: Client)
      requires NamesTied() && OwnedTied() && SubscribesTied() && SpyingTied() && NetTied()
      modifies this`clients, this`names, this`owned, this`subscribes, this`spying, this`net
      ensures NamesTied() && OwnedTied() && SubscribesTied() && SpyingTied() && NetTied()
      ensures fresh(c) && c.id == id && c.name == ""
      ensures St() == Admit(old(St()), c)
      ensures old(Memory.CanPublish(subscriberMap, subscriberMatchMap, net)) ==> Memory.CanPublish(subscriberMap, subscriberMatchMap, net)
    {
      c := new Client(id);
      StoreClient(c);
    }

    method NewClient(id: string) returns (c: Client)
      requires NamesTied() && OwnedTied() && SubscribesTied() && SpyingTied() && NetTied()
      requires id !in clients && Memory.CanPublish(subscriberMap, subscriberMatchMap, net)
      modifies this`clients, this`names, this`owned, this`subscribes, this`spying, this`net, net.conn.Keys`conn
      ensures NamesTied() && OwnedTied() && SubscribesTied() && SpyingTied() && NetTied()
      ensures fresh(c) && c.id == id && St() == Connect(old(St()), c)
    {
      c := MakeClient(id);
      EmitEvent(Event.NewClient(c.id, c.name));
    }

    method SetClientName(c: Client, name: string)
      requires NamesTied() && NetTied() && Memory.CanPublish(subscriberMap, subscriberMatchMap, net)
      modifies this`names, this`net, c`name, net.conn.Keys`conn
      ensures NamesTied() && NetTied() && St() == Rename(old(St()), c, name)
    {
      c.name := name;
      names := names[c := name];
      EmitEvent(ClientName(c.id, c.name));
    }

    // -------------------------------------------------------------- requests

    /** Arm a timer (`time.AfterFunc`) and store the tracking entry. */
    method TrackRequest(c: Client, id: RequestId, spies: Slice)
      modifies this`timers, this`reqIds, this`nextTimer, this`overwritten
      ensures Table() == R.Track(old(Table()), id, c, spies)
    {
      timers := timers[nextTimer := R.Alarm(id, c)];
      overwritten := overwritten + if id in reqIds then [reqIds[id].timer] else [];
      reqIds := reqIds[id := R.Entry(c, nextTimer, spies)];
      nextTimer := nextTimer + 1;
    }

    /** Write `m` to the clients of a slice, in order. */
    method SendToSlice(sl: Slice, m: Message)
      requires NetTied() && ArraysTied() && Memory.CanRead(book, sl, net)
      modifies this`net, net.conn.Keys`conn
      ensures NetTied() && net == SendEach(old(net), Contents(book, sl), m) && net.conn.Keys == old(net.conn.Keys)
    {
      var list := ReadSlice(sl);
      SendToEach(list, m);
    }

    method ForwardRequest(s: Service, m: Message)
      requires NetTied() && ArraysTied() && s in book.spies && s.spies == book.spies[s] && s.client in net.conn
      requires Memory.CanRead(book, book.spies[s], net)
      modifies this`net, net.conn.Keys`conn
      ensures NetTied() && net == SendEach(Send(old(net), s.client, m), SpiesOf(book, s), m)
    {
      SendMessage(s.client, m);
      SendToSlice(s.spies, m);
    }

    method AcceptRequest(c: Client, m: Message, s: Service)
      requires NetTied() && SlicesTied() && ArraysTied() && m.Request? && Target(St(), m) == Some(s)
      requires s.client in net.conn && Memory.CanRead(book, book.spies[s], net)
      modifies this`timers, this`reqIds, this`nextTimer, this`overwritten, this`net, net.conn.Keys`conn
      ensures NetTied() && net == SendEach(Send(old(net), s.client, m), SpiesOf(book, s), m)
      ensures Table() == R.Track(old(Table()), m.id, c, book.spies[s])
    {
      TrackRequest(c, m.id, s.spies);
      ForwardRequest(s, m);
    }

    method RouteRequest(c: Client, m: Message)
      requires NetTied() && SlicesTied() && ArraysTied() && c in net.conn && m.Request?
      requires Memory.CanForward(services, book, net, m.name, m.ident)
      modifies this`timers, this`reqIds, this`nextTimer, this`overwritten, this`net, net.conn.Keys`conn
      ensures NetTied() && net == RequestNet(old(St()), c, m)
      ensures Table() == RequestTable(old(St()), c, m)
    {
      if m.name !in services || |services[m.name]| == 0 {
        SendMessage(c, Reply(m.id, Error(NoSuchService)));
      } else if m.ident !in services[m.name] {
        SendMessage(c, Reply(m.id, Error(InvalidIdentification)));
      } else {
        AcceptRequest(c, m, services[m.name][m.ident]);
      }
    }

    method HandleRequest(c: Client, m: Message)
      requires NetTied() && SlicesTied() && ArraysTied() && c in net.conn && m.Request?
      requires Memory.CanForward(services, book, net, m.name, m.ident)
      modifies this`timers, this`reqIds, this`nextTimer, this`overwritten, this`net, net.conn.Keys`conn
      ensures NetTied() && St() == Requesting(old(St()), c, m)
    {
      RouteRequest(c, m);
      assert unchanged(`clients, `services, `subscriberMap, `subscriberMatchMap, `started, `crashed);
      assert unchanged(`names, `owned, `subscribes, `spying, `book);
    }

    /** Delete the entry and stop its timer. */
    method RetireRequest(id: RequestId)
      requires id in reqIds
      modifies this`reqIds, this`timers, this`answers
      ensures Table() == R.Settle(old(Table()), id)
    {
      var e := reqIds[id];
      reqIds := reqIds - {id};
      timers := timers - {e.timer};
      answers := answers + [R.Final(e, id, e.sender, R.Replied)];
    }

    method PassReply(id: RequestId, answer: Answer)
      requires NetTied() && ArraysTied()
      requires id in reqIds ==> reqIds[id].sender in net.conn && Memory.CanRead(book, reqIds[id].spies, net)
      modifies this`reqIds, this`timers, this`answers, this`net, net.conn.Keys`conn
      ensures NetTied() && net == ReplyNet(old(St()), id, answer)
      ensures Table() == R.Settle(old(Table()), id)
    {
      if id in reqIds {
        var e := reqIds[id];
        RetireRequest(id);
        SendToSlice(e.spies, Reply(id, answer));
        SendMessage(e.sender, Reply(id, answer));
      }
    }

    method HandleReply(id: RequestId, answer: Answer)
      requires NetTied() && ArraysTied()
      requires id in reqIds ==> reqIds[id].sender in net.conn && Memory.CanRead(book, reqIds[id].spies, net)
      modifies this`reqIds, this`timers, this`answers, this`net, net.conn.Keys`conn
      ensures NetTied() && St() == Replying(old(St()), id, answer)
    {
      PassReply(id, answer);
      assert unchanged(`clients, `services, `subscriberMap, `subscriberMatchMap, `started, `crashed);
      assert unchanged(`names, `owned, `subscribes, `spying, `book);
    }

    /** Timer `k` runs the closure made by `HandleRequest`. */
    method HandleTimeout(k: R.Timer)
      requires NetTied() && k in timers && timers[k].client in net.conn
      modifies this`reqIds, this`timers, this`answers, this`net, net.conn.Keys`conn
      ensures NetTied() && net == TimeoutNet(old(St()), old(timers[k]))
      ensures Table() == R.Expire(old(Table()), k)
    {
      var a := timers[k];
      timers := timers - {k};
      if a.id in reqIds {
        answers := answers + [R.Final(reqIds[a.id], a.id, a.client, R.TimedOut)];
        reqIds := reqIds - {a.id};
        SendMessage(a.client, Reply(a.id, Error(Timeout)));
      }
    }

    method GetRequestSender(id: RequestId) returns (c: Option<Client>)
      ensures c == if id in reqIds then Some(reqIds[id].sender) else None
    {
      if id !in reqIds {
        return None;
      }
      return Some(reqIds[id].sender);
    }

    // -------------------------------------------------------------- services

    /** Remove from its client's list the first service with this key. */
    method DetachService(owner: Client, name: string, ident: string)
      requires OwnedTied() && owner in owned
      modifies this`owned, owner`services
      ensures OwnedTied() && owned == old(owned)[owner := WithoutKey(old(owned)[owner], name, ident)]
    {
      var list := owner.services;
      var i := 0;
      while i < |list| && Keyed(list[i]) != (name, ident)
        invariant 0 <= i <= |list|
        invariant forall j :: 0 <= j < i ==> Keyed(list[j]) != (name, ident)
      {
        i := i + 1;
      }
      KeyIndexIs(list, name, ident, i);
      if i < |list| {
        owner.services := list[i := list[|list| - 1]][..|list| - 1];
      }
      owned := owned[owner := owner.services];
    }

    /** Tell of the service this key is registered for, if any, and detach it from its owner. */
    method ReplaceService(name: string, ident: string)
      requires OwnedTied() && NetTied() && Memory.CanPublish(subscriberMap, subscriberMatchMap, net)
      requires Lookup(services, name, ident).Some? ==> Lookup(services, name, ident).value.client in owned
      modifies this`net, net.conn.Keys`conn, this`owned, owned.Keys`services
      ensures OwnedTied() && NetTied() && net.conn.Keys == old(net.conn.Keys)
      ensures net == Superseded(old(net), subscriberMap, subscriberMatchMap, Lookup(services, name, ident))
      ensures owned == Vacated(old(owned), Lookup(services, name, ident), name, ident)
    {
      if name in services && ident in services[name] {
        var d := services[name][ident];
        PublishEvent(LostService(d.client.id, d.name, d.ident));
        DetachService(d.client, name, ident);
      }
    }

    /** Store a new service in the registry and in its client's list. */
    method InstallService(s: Service)
      requires OwnedTied() && s.client in owned
      modifies this`services, this`owned, s.client`services
      ensures OwnedTied()
      ensures services == Store(old(services), s) && owned == Joined(old(owned), s)
    {
      if s.name !in services {
        services := services[s.name := map[]];
      }
      services := services[s.name := services[s.name][s.ident := s]];
      s.client.services := s.client.services + [s];
      owned := owned[s.client := s.client.services];
    }

    /** A new service, whose slice and empty array enter the book. */
    method CreateService(c: Client, name: string, ident: string) returns (s: Service)
      requires SlicesTied() && ArraysTied()
      modifies this`book
      ensures SlicesTied() && ArraysTied()
      ensures fresh(s) && fresh(s.spies.arr) && s.client == c && s.name == name && s.ident == ident
      ensures s !in old(book.spies) && s.spies.arr !in old(book.store)
      ensures St() == old(St()).(book := Enrol(old(book), s, s.spies.arr))
    {
      s := new Service(c, name, ident);
      book := Enrol(book, s, s.spies.arr);
    }

    method AnnounceService(s: Service)
      requires NetTied() && Memory.CanPublish(subscriberMap, subscriberMatchMap, net) && !crashed
      modifies this`started, this`crashed, this`net, net.conn.Keys`conn
      ensures NetTied() && net.conn.Keys == old(net.conn.Keys)
      ensures started == (old(started) || s.name == "cellaserv") && crashed == (old(started) && s.name == "cellaserv")
      ensures net == if crashed then old(net)
                     else Tell(old(net), subscriberMap, subscriberMatchMap, NewService(s.client.id, s.name, s.ident))
    {
      if s.name == "cellaserv" {
        if started {
          crashed := true;  // close of a closed channel
          return;
        }
        started := true;
      }
      PublishEvent(NewService(s.client.id, s.name, s.ident));
    }

    /** The service takes the place of the one registered under its key, if any. */
    method TakeOver(s: Service)
      requires OwnedTied() && NetTied() && s.client in owned
      requires Memory.CanPublish(subscriberMap, subscriberMatchMap, net)
      requires Lookup(services, s.name, s.ident).Some? ==> Lookup(services, s.name, s.ident).value.client in owned
      modifies this`services, this`owned, this`net, owned.Keys`services, net.conn.Keys`conn
      ensures OwnedTied() && NetTied() && net.conn.Keys == old(net.conn.Keys)
      ensures services == Store(old(services), s)
      ensures owned == Joined(Vacated(old(owned), Lookup(old(services), s.name, s.ident), s.name, s.ident), s)
      ensures net == Superseded(old(net), subscriberMap, subscriberMatchMap, Lookup(old(services), s.name, s.ident))
    {
      ReplaceService(s.name, s.ident);
      InstallService(s);
    }

    method AddService(s: Service)
      requires OwnedTied() && NetTied() && s.client in owned
      requires Memory.CanPublish(subscriberMap, subscriberMatchMap, net) && !crashed
      requires Lookup(services, s.name, s.ident).Some? ==> Lookup(services, s.name, s.ident).value.client in owned
      modifies this`services, this`owned, this`started, this`crashed, this`net, owned.Keys`services, net.conn.Keys`conn
      ensures services == Store(old(services), s)
      ensures owned == Joined(Vacated(old(owned), Lookup(old(services), s.name, s.ident), s.name, s.ident), s)
      ensures net == Entered(old(net), subscriberMap, subscriberMatchMap, Lookup(old(services), s.name, s.ident), s, crashed)
      ensures started == (old(started) || s.name == "cellaserv") && crashed == (old(started) && s.name == "cellaserv")
      ensures OwnedTied() && NetTied()
    {
      TakeOver(s);
      AnnounceService(s);
    }

    /** A new service, put in the place of the one registered under its key. */
    method EnterService(s: Service)
      requires OwnedTied() && NetTied() && s.client in owned
      requires Memory.CanPublish(subscriberMap, subscriberMatchMap, net) && !crashed
      requires Lookup(services, s.name, s.ident).Some? ==> Lookup(services, s.name, s.ident).value.client in owned
      modifies this`services, this`owned, this`started, this`crashed, this`net, owned.Keys`services, net.conn.Keys`conn
      ensures OwnedTied() && NetTied() && St() == Entering(old(St()), s)
    {
      AddService(s);
      assert unchanged(`clients, `subscriberMap, `subscriberMatchMap, `names, `subscribes, `spying, `book);
      assert unchanged(`reqIds, `timers, `nextTimer, `answers, `overwritten);
      EnteringIs(old(St()), St(), s);
    }

    method HandleRegister(c: Client, name: string, ident: string) returns (s: Service)
      requires OwnedTied() && SlicesTied() && ArraysTied() && NetTied() && c in owned
      requires Memory.CanPublish(subscriberMap, subscriberMatchMap, net) && !crashed
      requires Lookup(services, name, ident).Some? ==> Lookup(services, name, ident).value.client in owned
      modifies this`services, this`owned, this`book, this`started, this`crashed, this`net, owned.Keys`services, net.conn.Keys`conn
      ensures OwnedTied() && SlicesTied() && ArraysTied() && NetTied()
      ensures fresh(s) && fresh(s.spies.arr)
      ensures s !in old(book.spies) && s.spies.arr !in old(book.store) && s.client == c && s.name == name && s.ident == ident
      ensures St() == Registering(old(St()), s, s.spies.arr)
    {
      s := CreateService(c, name, ident);
      RegisteringIs(old(St()), s, s.spies.arr);
      EnterService(s);
    }

    method GetService(name: string, ident: string) returns (s: Option<Service>)
      ensures s == Lookup(services, name, ident)
    {
      if name in services && ident in services[name] {
        return Some(services[name][ident]);
      }
      return None;
    }

    // ----------------------------------------------------------- subscribing

    method AlreadySubscribed(c: Client, pattern: string) returns (present: bool)
      ensures present <==> pattern in c.subscribes
    {
      var i := 0;
      while i < |c.subscribes|
        invariant 0 <= i <= |c.subscribes| && pattern !in c.subscribes[..i]
      {
        if c.subscribes[i] == pattern {
          return true;
        }
        i := i + 1;
      }
      return false;
    }

    method AddSubscriber(c: Client, pattern: string)
      modifies this`subscriberMap, this`subscriberMatchMap
      ensures subscriberMap == if HasStar(pattern) then old(subscriberMap) else AddTo(old(subscriberMap), pattern, c)
      ensures subscriberMatchMap == if HasStar(pattern) then AddTo(old(subscriberMatchMap), pattern, c) else old(subscriberMatchMap)
    {
      if HasStar(pattern) {
        var list := if pattern in subscriberMatchMap then subscriberMatchMap[pattern] else [];
        subscriberMatchMap := subscriberMatchMap[pattern := list + [c]];
      } else {
        var list := if pattern in subscriberMap then subscriberMap[pattern] else [];
        subscriberMap := subscriberMap[pattern := list + [c]];
      }
    }

    method RecordSubscription(c: Client, pattern: string)
      requires SubscribesTied() && c in subscribes
      modifies this`subscribes, this`subscriberMap, this`subscriberMatchMap, c`subscribes
      ensures SubscribesTied() && St() == Recording(old(St()), c, pattern)
    {
      c.subscribes := c.subscribes + [pattern];
      subscribes := subscribes[c := c.subscribes];
      AddSubscriber(c, pattern);
    }

    method HandleSubscribe(c: Client, pattern: string)
      requires SubscribesTied() && NetTied() && c in subscribes && c in net.conn
      requires Memory.CanPublish(subscriberMap, subscriberMatchMap, net)
      modifies this`subscribes, this`subscriberMap, this`subscriberMatchMap, this`net, c`subscribes, net.conn.Keys`conn
      ensures SubscribesTied() && NetTied()
      ensures St() == Subscribing(old(St()), c, pattern)
    {
      var present := AlreadySubscribed(c, pattern);
      if !present {
        RecordSubscription(c, pattern);
        EmitEvent(NewSubscriber(pattern, c.id));
        SubscribingIs(old(St()), c, pattern);
      }
    }

    // -------------------------------------------------------------- spying

    /**
     * `append(srvc.spies, c)`: in place when the backing array has room, else
     * in a new array with `spare` more places than needed.
     */
    method AppendSpy(c: Client, s: Service, spare: nat) returns (room: array<Client>)
      requires SlicesTied() && ArraysTied() && s in book.spies && Backed(book, s.spies)
      modifies this`book, s`spies, s.spies.arr
      ensures SlicesTied() && ArraysTied()
      ensures room !in old(book.store) && book == AddSpy(old(book), c, s, room, spare)
    {
      var Slice(arr, len) := s.spies;
      if len < arr.Length {
        room := new Client[0];
        arr[len] := c;
        s.spies := Slice(arr, len + 1);
      } else {
        var list := arr[..len];
        room := new Client[len + 1 + spare](i => if 0 <= i < |list| then list[i] else c);
        s.spies := Slice(room, len + 1);
      }
      book := AddSpy(book, c, s, room, spare);
    }

    method ListSpied(c: Client, s: Service)
      requires SpyingTied() && c in spying
      modifies this`spying, c`spying
      ensures SpyingTied() && spying == old(spying)[c := Listed(old(spying), c) + [s]]
    {
      c.spying := c.spying + [s];
      spying := spying[c := c.spying];
    }

    method SpyService(c: Client, s: Service, spare: nat) returns (room: array<Client>)
      requires SpyingTied() && SlicesTied() && ArraysTied() && c in spying
      requires s in book.spies && Backed(book, s.spies)
      modifies this`book, this`spying, s`spies, s.spies.arr, c`spying
      ensures SpyingTied() && SlicesTied() && ArraysTied()
      ensures room !in old(book.store) && St() == Spy(old(St()), c, s, room, spare)
    {
      room := AppendSpy(c, s, spare);
      ListSpied(c, s);
    }

    // ------------------------------------------------------------- departure

    /** Close the connections of the spies of a service. */
    method CloseSpies(s: Service)
      requires NetTied() && SlicesTied() && ArraysTied() && s in book.spies
      requires Memory.CanRead(book, book.spies[s], net)
      modifies this`net, net.conn.Keys`closed
      ensures SlicesTied() && ArraysTied()
      ensures NetTied() && net.conn.Keys == old(net.conn.Keys)
      ensures net == Disconnected(old(net), SpiesOf(book, s))
      ensures Apart() == old(Apart())
    {
      var list := ReadSlice(s.spies);
      var i := 0;
      while i < |list|
        invariant 0 <= i <= |list| && net == old(net)
        invariant forall c :: c in net.conn ==> c.closed == (c in net.closed || c in list[..i]) && c.conn == net.conn[c]
      {
        list[i].closed := true;
        i := i + 1;
      }
      net := Disconnected(net, list);
    }

    /** Tell of a service and take it out of the registry, whoever has its key by now. */
    method UnregisterService(s: Service)
      requires NetTied() && SlicesTied() && ArraysTied() && Memory.CanPublish(subscriberMap, subscriberMatchMap, net)
      modifies this`services, this`net, net.conn.Keys`conn
      ensures NetTied() && net.conn.Keys == old(net.conn.Keys)
      ensures services == Unregister(old(services), s)
      ensures net == Tell(old(net), subscriberMap, subscriberMatchMap, Lost(s))
      ensures SlicesTied() && ArraysTied()
      ensures Apart() == old(Apart())
    {
      PublishEvent(LostService(s.client.id, s.name, s.ident));
      if s.name in services {
        services := services[s.name := services[s.name] - {s.ident}];
      }
    }

    /** Withdraw one service of a departing client and close its spies. */
    method WithdrawService(s: Service)
      requires NetTied() && SlicesTied() && ArraysTied() && Memory.CanPublish(subscriberMap, subscriberMatchMap, net)
      requires s in book.spies && Memory.CanRead(book, book.spies[s], net)
      modifies this`services, this`net, net.conn.Keys`conn, net.conn.Keys`closed
      ensures NetTied() && net.conn.Keys == old(net.conn.Keys)
      ensures services == Unregister(old(services), s)
      ensures net == WithdrawOne(old(net), subscriberMap, subscriberMatchMap, book, s)
      ensures SlicesTied() && ArraysTied()
      ensures Apart() == old(Apart())
    {
      UnregisterService(s);
      CloseSpies(s);
    }

    /** One turn of the loop below. */
    method WithdrawAt(list: seq<Service>, i: nat)
      requires NetTied() && SlicesTied() && ArraysTied() && i < |list|
      requires CanWithdraw(book, subscriberMap, subscriberMatchMap, net, list)
      modifies this`services, this`net, net.conn.Keys`conn, net.conn.Keys`closed
      ensures NetTied() && net.conn.Keys == old(net.conn.Keys)
      ensures UnregisterFrom(services, list, i + 1) == UnregisterFrom(old(services), list, i)
      ensures WithdrawFrom(net, subscriberMap, subscriberMatchMap, book, list, i + 1) ==
              WithdrawFrom(old(net), subscriberMap, subscriberMatchMap, book, list, i)
      ensures CanWithdraw(book, subscriberMap, subscriberMatchMap, net, list)
      ensures SlicesTied() && ArraysTied()
      ensures Apart() == old(Apart())
    {
      ghost var n := net;
      WithdrawService(list[i]);
      CanStillWithdraw(book, subscriberMap, subscriberMatchMap, n, net, list);
    }

    method WithdrawEach(list: seq<Service>)
      requires NetTied() && SlicesTied() && ArraysTied() && Memory.CanPublish(subscriberMap, subscriberMatchMap, net)
      requires forall s :: s in list ==> s in book.spies && Memory.CanRead(book, book.spies[s], net)
      modifies this`services, this`net, net.conn.Keys`conn, net.conn.Keys`closed
      ensures NetTied() && net.conn.Keys == old(net.conn.Keys)
      ensures services == UnregisterFrom(old(services), list, 0)
      ensures net == WithdrawFrom(old(net), subscriberMap, subscriberMatchMap, book, list, 0)
      ensures SlicesTied() && ArraysTied()
      ensures Apart() == old(Apart())
    {
      ghost var b, exact, glob := book, subscriberMap, subscriberMatchMap;
      ghost var left, told := UnregisterFrom(services, list, 0), WithdrawFrom(net, exact, glob, b, list, 0);
      ghost var a := Apart();
      var i := 0;
      while i < |list|
        invariant 0 <= i <= |list|
        invariant NetTied() && net.conn.Keys == old(net.conn.Keys)
        invariant left == UnregisterFrom(services, list, i) && told == WithdrawFrom(net, exact, glob, b, list, i)
        invariant CanWithdraw(b, exact, glob, net, list)
        invariant SlicesTied() && ArraysTied()
        invariant Apart() == a
      {
        WithdrawAt(list, i);
        i := i + 1;
      }
    }

    method RemoveServicesOnClient(c: Client)
      requires NetTied() && SlicesTied() && ArraysTied() && Memory.CanPublish(subscriberMap, subscriberMatchMap, net)
      requires forall s :: s in c.services ==> s in book.spies && Memory.CanRead(book, book.spies[s], net)
      modifies this`services, this`net, net.conn.Keys`conn, net.conn.Keys`closed
      ensures NetTied() && net.conn.Keys == old(net.conn.Keys)
      ensures services == UnregisterAll(old(services), c.services)
      ensures net == Withdraw(old(net), subscriberMap, subscriberMatchMap, book, c.services)
      ensures SlicesTied() && ArraysTied()
      ensures Apart() == old(Apart()) && ClientsTied() == old(ClientsTied())
    {
      UnregisterFromIs(services, c.services, 0);
      WithdrawFromIs(net, subscriberMap, subscriberMatchMap, book, c.services, 0);
      assert c.services[0..] == c.services;
      WithdrawEach(c.services);
    }

    /**
     * The inner loop of `removeConnFromMap`, over one list of subscribers: it
     * does not stop at a match, and it reads the list it is overwriting.
     */
    static method RemoveFromList(list: seq<Client>, c: Client) returns (left: seq<Client>, matches: nat)
      ensures matches == multiset(list)[c]
      ensures left == if c in list then OverwriteMatches(list, c) else list
    {
      var n := |list|;
      var cur := list;
      left, matches := list, 0;
      var i := 0;
      while i < n
        invariant 0 <= i <= n && |cur| == n
        invariant forall j :: 0 <= j < n ==> cur[j] == if j < i && list[j] == c then list[n - 1] else list[j]
        invariant matches == multiset(list[..i])[c]
        invariant left == if c in list[..i] then cur[..n - 1] else list
      {
        assert list[..i + 1] == list[..i] + [list[i]];
        if cur[i] == c {
          matches := matches + 1;
          cur := cur[i := cur[n - 1]];
          left := cur[..n - 1];
        }
        i := i + 1;
      }
      assert list[..n] == list;
      if c in list {
        assert cur[..n - 1] == OverwriteMatches(list, c);
      }
    }

    /** One key of a subscriber map: forget the key when the list is left empty. */
    static method RemoveFromKey(m: Subscribers, key: string, c: Client) returns (m': Subscribers, removed: seq<Event>)
      requires key in m
      ensures m' == DropKey(m, key, c)
      ensures removed == DroppedAt(m, key, c)
    {
      var left, matches := RemoveFromList(m[key], c);
      removed := seq(matches, _ => LostSubscriber(key, c.id));
      m' := m;
      if matches > 0 {
        m' := if left == [] then m - {key} else m[key := left];
      }
    }

    /**
     * `removeConnFromMap`: visits the keys in some order and returns the map
     * that is left with the subscriptions removed.
     */
    static method RemoveConnFromMap(subMap: Subscribers, c: Client)
      returns (rest: Subscribers, removed: seq<Event>, ghost keys: seq<string>)
      ensures Enumerates(keys, subMap)
      ensures rest == DropFrom(subMap, c)
      ensures removed == Dropped(subMap, keys, c)
    {
      rest, removed, keys := subMap, [], [];
      var todo := subMap.Keys;
      while todo != {}
        invariant NoDup(keys) && forall k :: k in keys <==> k in subMap && k !in todo
        invariant todo <= subMap.Keys && PartlyDropped(subMap, rest, todo, c)
        invariant removed == Dropped(subMap, keys, c)
        decreases todo
      {
        var key :| key in todo;
        todo := todo - {key};
        DroppedSnoc(subMap, keys, key, c);
        keys := keys + [key];
        ghost var before := rest;
        var more;
        rest, more := RemoveFromKey(rest, key, c);
        PartlyDroppedStep(subMap, before, todo, key, c);
        removed := removed + more;
      }
      PartlyDroppedAll(subMap, rest, c);
    }

    /** Publish the events in order. */
    method PublishEvents(es: seq<Event>)
      requires NetTied() && Memory.CanPublish(subscriberMap, subscriberMatchMap, net)
      modifies this`net, net.conn.Keys`conn
      ensures NetTied() && net.conn.Keys == old(net.conn.Keys)
      ensures net == TellFrom(old(net), subscriberMap, subscriberMatchMap, es, 0)
      ensures Apart() == old(Apart())
    {
      ghost var exact, glob := subscriberMap, subscriberMatchMap;
      ghost var told := TellFrom(net, exact, glob, es, 0);
      var i := 0;
      while i < |es|
        invariant 0 <= i <= |es|
        invariant NetTied() && net.conn.Keys == old(net.conn.Keys)
        invariant told == TellFrom(net, exact, glob, es, i)
      {
        PublishEvent(es[i]);
        i := i + 1;
      }
    }

    /** Publish the removals, in the order in which the loops found them. */
    method PublishRemovals(es: seq<Event>)
      requires NetTied() && Memory.CanPublish(subscriberMap, subscriberMatchMap, net)
      modifies this`net, net.conn.Keys`conn
      ensures NetTied() && net.conn.Keys == old(net.conn.Keys)
      ensures net == TellAll(old(net), subscriberMap, subscriberMatchMap, es)
      ensures Apart() == old(Apart()) && ClientsTied() == old(ClientsTied())
    {
      TellFromIs(net, subscriberMap, subscriberMatchMap, es, 0);
      assert es[0..] == es;
      PublishEvents(es);
    }

    method SetIndexes(exact: Subscribers, glob: Subscribers)
      modifies this`subscriberMap, this`subscriberMatchMap
      ensures subscriberMap == exact && subscriberMatchMap == glob
      ensures Apart() == old(Apart()) && ClientsTied() == old(ClientsTied())
    {
      subscriberMap, subscriberMatchMap := exact, glob;
    }

    /** Take the client out of both maps. */
    method UnindexClient(c: Client) returns (removed: seq<Event>, ghost exactKeys: seq<string>, ghost globKeys: seq<string>)
      requires Memory.CanPublish(subscriberMap, subscriberMatchMap, net)
      modifies this`subscriberMap, this`subscriberMatchMap
      ensures Enumerates(exactKeys, old(subscriberMap)) && Enumerates(globKeys, old(subscriberMatchMap))
      ensures Memory.CanPublish(subscriberMap, subscriberMatchMap, net)
      ensures subscriberMap == DropFrom(old(subscriberMap), c) && subscriberMatchMap == DropFrom(old(subscriberMatchMap), c)
      ensures removed == Dropped(old(subscriberMap), exactKeys, c) + Dropped(old(subscriberMatchMap), globKeys, c)
      ensures Apart() == old(Apart()) && ClientsTied() == old(ClientsTied())
    {
      Memory.DropKnown(subscriberMap, c, net.conn.Keys);
      Memory.DropKnown(subscriberMatchMap, c, net.conn.Keys);
      var exact, glob, exactRemoved, globRemoved;
      exact, exactRemoved, exactKeys := RemoveConnFromMap(subscriberMap, c);
      glob, globRemoved, globKeys := RemoveConnFromMap(subscriberMatchMap, c);
      removed := exactRemoved + globRemoved;
      SetIndexes(exact, glob);
    }

    method RemoveSubscriptionsOfClient(c: Client) returns (ghost exactKeys: seq<string>, ghost globKeys: seq<string>)
      requires NetTied() && Memory.CanPublish(subscriberMap, subscriberMatchMap, net)
      modifies this`subscriberMap, this`subscriberMatchMap, this`net, net.conn.Keys`conn
      ensures NetTied() && net.conn.Keys == old(net.conn.Keys)
      ensures Enumerates(exactKeys, old(subscriberMap)) && Enumerates(globKeys, old(subscriberMatchMap))
      ensures Memory.CanPublish(subscriberMap, subscriberMatchMap, net)
      ensures subscriberMap == DropFrom(old(subscriberMap), c) && subscriberMatchMap == DropFrom(old(subscriberMatchMap), c)
      ensures net == TellAll(old(net), subscriberMap, subscriberMatchMap,
                             Dropped(old(subscriberMap), exactKeys, c) + Dropped(old(subscriberMatchMap), globKeys, c))
      ensures Apart() == old(Apart()) && ClientsTied() == old(ClientsTied())
    {
      var removed;
      removed, exactKeys, globKeys := UnindexClient(c);
      PublishRemovals(removed);
    }

    /** Swap-remove the first occurrence of `c` from the spies of `s`. */
    method DropSpy(s: Service, c: Client)
      requires SlicesTied() && ArraysTied() && s in book.spies && Backed(book, s.spies)
      modifies this`book, s`spies, s.spies.arr
      ensures SlicesTied() && ArraysTied()
      ensures book == RemoveSpy(old(book), s, c)
    {
      var list := ReadSlice(s.spies);
      var Slice(arr, len) := s.spies;
      var i := IndexOf(list, c);
      book := RemoveSpy(book, s, c);
      if i < len {
        arr[i] := arr[len - 1];
        s.spies := Slice(arr, len - 1);
      }
    }

    method RemoveSpiesOnClient(c: Client)
      requires NetTied()
      requires SlicesTied() && ArraysTied() && Memory.AllBacked(book) && forall s :: s in c.spying ==> s in book.spies
      modifies this`book, book.spies.Keys`spies, book.store.Keys
      ensures NetTied() && SlicesTied() && ArraysTied()
      ensures book == RemoveSpies(old(book), c.spying, c)
      ensures Apart() == old(Apart()) && ClientsTied() == old(ClientsTied())
    {
      var list := c.spying;
      var i := 0;
      assert list[0..] == list;
      while i < |list|
        invariant 0 <= i <= |list|
        invariant SlicesTied() && ArraysTied() && Memory.AllBacked(book)
        invariant book.spies.Keys == old(book.spies.Keys) && book.store.Keys == old(book.store.Keys)
        invariant RemoveSpies(book, list[i..], c) == RemoveSpies(old(book), list, c)
      {
        RemoveSpyBacked(book, list[i], c);
        DropSpy(list[i], c);
        assert list[i..][1..] == list[i + 1..];
        i := i + 1;
      }
    }

    /** The services and the subscriptions of the client, told of as they go. */
    method RemoveRegistrations(c: Client) returns (ghost exactKeys: seq<string>, ghost globKeys: seq<string>)
      requires NetTied() && SlicesTied() && ArraysTied() && Memory.CanPublish(subscriberMap, subscriberMatchMap, net)
      requires forall s :: s in c.services ==> s in book.spies && Memory.CanRead(book, book.spies[s], net)
      modifies this`services, this`subscriberMap, this`subscriberMatchMap, this`net, net.conn.Keys`conn, net.conn.Keys`closed
      ensures NetTied() && SlicesTied() && ArraysTied() && Memory.CanPublish(subscriberMap, subscriberMatchMap, net)
      ensures Enumerates(exactKeys, old(subscriberMap)) && Enumerates(globKeys, old(subscriberMatchMap))
      ensures services == UnregisterAll(old(services), c.services)
      ensures subscriberMap == DropFrom(old(subscriberMap), c) && subscriberMatchMap == DropFrom(old(subscriberMatchMap), c)
      ensures net == Unsubscribed(Withdraw(old(net), old(subscriberMap), old(subscriberMatchMap), book, c.services),
                                  old(subscriberMap), old(subscriberMatchMap), c, exactKeys, globKeys)
      ensures net.conn.Keys == old(net.conn.Keys)
      ensures Apart() == old(Apart()) && ClientsTied() == old(ClientsTied())
    {
      RemoveServicesOnClient(c);
      exactKeys, globKeys := RemoveSubscriptionsOfClient(c);
    }

    /** All that leaves with the client but its place among the clients. */
    method RemoveTraces(c: Client) returns (ghost exactKeys: seq<string>, ghost globKeys: seq<string>)
      requires NetTied() && SlicesTied() && ArraysTied() && Memory.CanPublish(subscriberMap, subscriberMatchMap, net)
      requires forall s :: s in c.services ==> s in book.spies && Memory.CanRead(book, book.spies[s], net)
      requires Memory.AllBacked(book) && forall s :: s in c.spying ==> s in book.spies
      modifies this`services, this`subscriberMap, this`subscriberMatchMap, this`book, this`net
      modifies net.conn.Keys`conn, net.conn.Keys`closed, book.spies.Keys`spies, book.store.Keys
      ensures NetTied() && SlicesTied() && ArraysTied() && Memory.CanPublish(subscriberMap, subscriberMatchMap, net)
      ensures Enumerates(exactKeys, old(subscriberMap)) && Enumerates(globKeys, old(subscriberMatchMap))
      ensures services == UnregisterAll(old(services), c.services)
      ensures subscriberMap == DropFrom(old(subscriberMap), c) && subscriberMatchMap == DropFrom(old(subscriberMatchMap), c)
      ensures book == RemoveSpies(old(book), c.spying, c)
      ensures net == Unsubscribed(Withdraw(old(net), old(subscriberMap), old(subscriberMatchMap), old(book), c.services),
                                  old(subscriberMap), old(subscriberMatchMap), c, exactKeys, globKeys)
      ensures net.conn.Keys == old(net.conn.Keys)
      ensures Apart() == old(Apart()) && ClientsTied() == old(ClientsTied())
    {
      exactKeys, globKeys := RemoveRegistrations(c);
      RemoveSpiesOnClient(c);
    }

    method ForgetClient(c: Client)
      requires NetTied() && SlicesTied() && ArraysTied() && Memory.CanPublish(subscriberMap, subscriberMatchMap, net)
      modifies this`clients, this`net, net.conn.Keys`conn
      ensures NetTied() && clients == old(clients) - {c.id}
      ensures net == Tell(old(net), subscriberMap, subscriberMatchMap, LostClient(c.id, c.name))
      ensures SlicesTied() && ArraysTied()
      ensures Apart() == old(Apart()) && ClientsTied() == old(ClientsTied())
    {
      clients := clients - {c.id};
      PublishEvent(LostClient(c.id, c.name));
    }

    /** `RemoveClient` for the fields it changes. */
    method ClearClient(c: Client) returns (ghost exactKeys: seq<string>, ghost globKeys: seq<string>)
      requires NetTied() && SlicesTied() && ArraysTied() && Memory.CanPublish(subscriberMap, subscriberMatchMap, net)
      requires forall s :: s in c.services ==> s in book.spies && Memory.CanRead(book, book.spies[s], net)
      requires Memory.AllBacked(book) && forall s :: s in c.spying ==> s in book.spies
      modifies this`clients, this`services, this`subscriberMap, this`subscriberMatchMap, this`book, this`net
      modifies net.conn.Keys`conn, net.conn.Keys`closed, book.spies.Keys`spies, book.store.Keys
      ensures NetTied() && SlicesTied() && ArraysTied()
      ensures Enumerates(exactKeys, old(subscriberMap)) && Enumerates(globKeys, old(subscriberMatchMap))
      ensures clients == old(clients) - {c.id} && services == UnregisterAll(old(services), c.services)
      ensures subscriberMap == DropFrom(old(subscriberMap), c) && subscriberMatchMap == DropFrom(old(subscriberMatchMap), c)
      ensures book == RemoveSpies(old(book), c.spying, c)
      ensures net == Parted(old(net), old(subscriberMap), old(subscriberMatchMap), old(book), c, c.services, c.name, exactKeys, globKeys)
      ensures net.conn.Keys == old(net.conn.Keys)
      ensures Apart() == old(Apart()) && ClientsTied() == old(ClientsTied())
    {
      exactKeys, globKeys := RemoveTraces(c);
      ForgetClient(c);
    }

    // ------------------------------------------- handlers on the whole broker

    method StepConnect(id: string) returns (c: Client)
      requires Valid() && id !in clients && Memory.CanPublish(subscriberMap, subscriberMatchMap, net)
      modifies this`clients, this`names, this`owned, this`subscribes, this`spying, this`net, net.conn.Keys`conn
      ensures Valid() && fresh(c) && c.id == id && c !in old(names) && St() == Connect(old(St()), c)
    {
      c := NewClient(id);
    }

    method StepRename(c: Client, name: string)
      requires Valid() && c in names && Memory.CanPublish(subscriberMap, subscriberMatchMap, net)
      modifies this`names, this`net, c`name, net.conn.Keys`conn
      ensures Valid() && St() == Rename(old(St()), c, name)
    {
      SetClientName(c, name);
    }

    method StepRegister(c: Client, name: string, ident: string) returns (s: Service)
      requires Valid() && c in owned && !crashed
      requires Memory.CanPublish(subscriberMap, subscriberMatchMap, net)
      requires Lookup(services, name, ident).Some? ==> Lookup(services, name, ident).value.client in owned
      modifies this`services, this`owned, this`book, this`started, this`crashed, this`net, owned.Keys`services, net.conn.Keys`conn
      ensures Valid()
      ensures fresh(s) && fresh(s.spies.arr)
      ensures s !in old(book.spies) && s.spies.arr !in old(book.store) && s.client == c && s.name == name && s.ident == ident
      ensures St() == Registering(old(St()), s, s.spies.arr)
    {
      s := HandleRegister(c, name, ident);
    }

    method StepSubscribe(c: Client, pattern: string)
      requires Valid() && c in subscribes && c in net.conn && Memory.CanPublish(subscriberMap, subscriberMatchMap, net)
      modifies this`subscribes, this`subscriberMap, this`subscriberMatchMap, this`net, c`subscribes, net.conn.Keys`conn
      ensures Valid() && St() == Subscribing(old(St()), c, pattern)
    {
      HandleSubscribe(c, pattern);
    }

    method StepPublish(topic: string, payload: Payload)
      requires Valid() && Memory.CanPublish(subscriberMap, subscriberMatchMap, net)
      modifies this`net, net.conn.Keys`conn
      ensures Valid() && St() == DoPublish(old(St()), topic, payload)
    {
      Publish(topic, payload);
    }

    method StepSpy(c: Client, s: Service, spare: nat) returns (room: array<Client>)
      requires Valid() && Memory.CanSpy(St(), c, s)
      modifies this`book, this`spying, s`spies, s.spies.arr, c`spying
      ensures Valid() && room !in old(book.store) && St() == Spy(old(St()), c, s, room, spare)
    {
      room := SpyService(c, s, spare);
    }

    method StepRequest(c: Client, m: Message)
      requires Valid() && c in net.conn && m.Request? && Memory.CanForward(services, book, net, m.name, m.ident)
      modifies this`timers, this`reqIds, this`nextTimer, this`overwritten, this`net, net.conn.Keys`conn
      ensures Valid() && St() == Requesting(old(St()), c, m)
    {
      HandleRequest(c, m);
    }

    method StepReply(id: RequestId, answer: Answer)
      requires Valid()
      requires id in reqIds ==> reqIds[id].sender in net.conn && Memory.CanRead(book, reqIds[id].spies, net)
      modifies this`reqIds, this`timers, this`answers, this`net, net.conn.Keys`conn
      ensures Valid() && St() == Replying(old(St()), id, answer)
    {
      HandleReply(id, answer);
    }

    method StepTimeout(k: R.Timer)
      requires Valid() && Memory.CanFire(St(), k)
      modifies this`reqIds, this`timers, this`answers, this`net, net.conn.Keys`conn
      ensures Valid() && St() == Fire(old(St()), k)
    {
      HandleTimeout(k);
      assert unchanged(`clients, `services, `subscriberMap, `subscriberMatchMap, `started, `crashed);
      assert unchanged(`names, `owned, `subscribes, `spying, `book);
    }

    /** The connection has ended: the fields that change. */
    method RemoveClient(c: Client) returns (ghost exactKeys: seq<string>, ghost globKeys: seq<string>)
      requires Valid() && Memory.CanPublish(subscriberMap, subscriberMatchMap, net)
      requires forall s :: s in c.services ==> s in book.spies && Memory.CanRead(book, book.spies[s], net)
      requires Memory.AllBacked(book) && forall s :: s in c.spying ==> s in book.spies
      modifies this`clients, this`services, this`subscriberMap, this`subscriberMatchMap, this`book, this`net
      modifies net.conn.Keys`conn, net.conn.Keys`closed, book.spies.Keys`spies, book.store.Keys
      ensures Enumerates(exactKeys, old(subscriberMap)) && Enumerates(globKeys, old(subscriberMatchMap))
      ensures clients == old(clients) - {c.id} && services == UnregisterAll(old(services), c.services)
      ensures subscriberMap == DropFrom(old(subscriberMap), c) && subscriberMatchMap == DropFrom(old(subscriberMatchMap), c)
      ensures book == RemoveSpies(old(book), c.spying, c)
      ensures net == Parted(old(net), old(subscriberMap), old(subscriberMatchMap), old(book), c, c.services, c.name, exactKeys, globKeys)
      ensures Valid()
      ensures Apart() == old(Apart())
    {
      exactKeys, globKeys := ClearClient(c);
    }

    /** `RemoveClient`, as a move of the whole state. */
    method StepDepart(c: Client) returns (ghost exactKeys: seq<string>, ghost globKeys: seq<string>)
      requires Valid() && Memory.CanDepart(St(), c)
      modifies this`clients, this`services, this`subscriberMap, this`subscriberMatchMap, this`book, this`net
      modifies net.conn.Keys`conn, net.conn.Keys`closed, book.spies.Keys`spies, book.store.Keys
      ensures Enumerates(exactKeys, old(subscriberMap)) && Enumerates(globKeys, old(subscriberMatchMap))
      ensures St() == Depart(old(St()), c, exactKeys, globKeys)
      ensures Valid()
    {
      exactKeys, globKeys := RemoveClient(c);
      DepartIs(old(St()), c, exactKeys, globKeys);
    }

    method GetClient(id: string) returns (c: Option<Client>)
      ensures c == if id in clients then Some(clients[id]) else None
    {
      if id !in clients {
        return None;
      }
      return Some(clients[id]);
    }

    /** The internal service renames the sender of a tracked request, if it is still tracked. */
    method RenameClientFromRequest(id: RequestId, name: string)
      requires Valid() && Memory.CanPublish(subscriberMap, subscriberMatchMap, net)
      requires id in reqIds ==> reqIds[id].sender in names
      modifies this`names, this`net, names.Keys`name, net.conn.Keys`conn
      ensures Valid()
      ensures St() == if id in old(reqIds) then Rename(old(St()), old(reqIds[id].sender), name) else old(St())
    {
      var sender := GetRequestSender(id);
      if sender.Some? {
        StepRename(sender.value, name);
      }
    }

    // ------------------------------------------------------------- dispatch

    /** `handleMessage`: the message of a connected client goes to its handler. */
    method HandleMessage(c: Client, m: Message) returns (ghost step: Step)
      requires Valid() && !crashed && Connected(St(), c) && Memory.CanServe(St(), c, m)
      modifies this
      modifies names.Keys, owned.Keys, subscribes.Keys, net.conn.Keys
      ensures Serves(step, c, m) && Enabled(old(St()), step) && (step.Registers? ==> fresh(step.s) && fresh(step.none))
      ensures St() == Apply(old(St()), step)
      ensures Valid()
    {
      match m
      case Register(name, ident) =>
        var s := StepRegister(c, name, ident);
        step := Registers(s, s.spies.arr);
      case Request(_, _, _, _, _) =>
        StepRequest(c, m);
        step := Requests(c, m);
      case Reply(id, answer) =>
        StepReply(id, answer);
        step := Replies(c, id, answer);
      case Subscribe(pattern) =>
        StepSubscribe(c, pattern);
        step := Subscribes(c, pattern);
      case Publish(topic, payload) =>
        StepPublish(topic, payload);
        step := Publishes(c, topic, payload);
    }

    /** ... and what a message leaves alone; `made` are the objects it may add. */
    method TakeMessage(c: Client, m: Message) returns (ghost step: Step, ghost made: set<object>)
      requires Valid() && !crashed && Connected(St(), c) && Memory.CanServe(St(), c, m)
      modifies this, names.Keys, owned.Keys, subscribes.Keys, net.conn.Keys
      ensures Serves(step, c, m) && Enabled(old(St()), step) && St() == Apply(old(St()), step)
      ensures clients == old(clients) && names == old(names)
      ensures fresh(made) && NewIn(old(book), book, made)
      ensures Valid()
    {
      step := HandleMessage(c, m);
      ServingStays(old(St()), step, c, m);
      made := Made(step);
    }

    // A connection from its start to its end, in a run that began in `st`.

    method StartConnection(id: string) returns (c: Client)
      requires Valid() && Memory.Closed(St()) && !crashed && id !in clients
      modifies this, names.Keys
      ensures fresh(c) && c.id == id && Came(old(St()), [Connects(c)], St())
      ensures Connected(St(), c) && names.Keys == old(names.Keys) + {c} && book == old(book) && !crashed
      ensures Valid()
    {
      Memory.ClosedCanPublish(St());
      c := StepConnect(id);
      CameFirst(old(St()), c);
    }

    method ServeMessage(c: Client, m: Message, ghost st: State, ghost run: seq<Step>)
      returns (ghost step: Step, ghost made: set<object>)
      requires Valid() && Memory.Closed(st) && Came(st, run, St()) && !crashed && Connected(St(), c)
      modifies this, names.Keys
      ensures Serves(step, c, m) && Came(st, run + [step], St())
      ensures clients == old(clients) && names == old(names)
      ensures fresh(made) && NewIn(old(book), book, made)
      ensures Valid()
    {
      Runs.RunKeepsMemory(st, run);
      Memory.ClosedCanServe(St(), c, m);
      step, made := TakeMessage(c, m);
      CameNext(st, run, old(St()), step);
    }

    /** The loop of a connection: its messages one after the other, unless the process panics. */
    method ServeMessages(c: Client, ms: seq<Message>, ghost st: State, ghost run: seq<Step>)
      returns (ghost served: seq<Step>, ghost made: set<object>)
      requires Valid() && Memory.Closed(st) && Came(st, run, St()) && !crashed && Connected(St(), c)
      modifies this, names.Keys
      ensures ServesEach(served, c, ms) && (crashed || |served| == |ms|) && Came(st, run + served, St())
      ensures clients == old(clients) && names == old(names)
      ensures fresh(made) && NewIn(old(book), book, made)
      ensures Valid()
    {
      served, made := [], {};
      ghost var before := book;
      assert run + [] == run;
      var i := 0;
      while i < |ms| && !crashed
        invariant i == |served| <= |ms| && ServesEach(served, c, ms) && Came(st, run + served, St())
        invariant clients == old(clients) && names == old(names)
        invariant fresh(made) && NewIn(before, book, made)
        invariant Valid()
      {
        ghost var mid := book;
        ghost var step, more := ServeMessage(c, ms[i], st, run + served);
        ServesOneMore(served, c, ms, step);
        ConcatAssoc(run, served, [step]);
        FreshUnion(made, more);
        NewInBoth(before, mid, book, made, more);
        served, made := served + [step], made + more;
        i := i + 1;
      }
    }

    method EndConnection(c: Client, ghost st: State, ghost run: seq<Step>) returns (ghost step: Step)
      requires Valid() && Memory.Closed(st) && Came(st, run, St()) && !crashed && Connected(St(), c)
      modifies this, names.Keys, book.spies.Keys, book.store.Keys
      ensures step.Departs? && step.c == c && Came(st, run + [step], St()) && crashed == old(crashed)
      ensures Valid()
    {
      Runs.RunKeepsMemory(st, run);
      Memory.ClosedCanDepart(St(), c);
      ghost var exactKeys, globKeys := StepDepart(c);
      step := Departs(c, exactKeys, globKeys);
      CameNext(st, run, old(St()), step);
    }

    /** The loop, and what follows it. */
    method ServeConnection(c: Client, ms: seq<Message>, ghost st: State, ghost run: seq<Step>) returns (ghost rest: seq<Step>)
      requires Valid() && Memory.Closed(st) && Came(st, run, St()) && !crashed && Connected(St(), c)
      modifies this, names.Keys, book.spies.Keys, book.store.Keys
      ensures Came(st, run + rest, St()) && Served(rest, c, ms, crashed)
      ensures Valid()
    {
      ghost var served, made := ServeMessages(c, ms, st, run);
      rest := served;
      if !crashed {
        ghost var last := EndConnection(c, st, run + served);
        ServedIs(served, c, ms, last);
        ConcatAssoc(run, served, [last]);
        rest := served + [last];
      }
    }

    /**
     * `handle`, with no other connection in between: the broker makes a legal run,
     * one step for the arrival, for each message and for the departure.
     */
    method Handle(id: string, ms: seq<Message>) returns (c: Client, ghost steps: seq<Step>)
      requires Valid() && Memory.Closed(St()) && !crashed && id !in clients
      modifies this, names.Keys, book.spies.Keys, book.store.Keys
      ensures Legal(old(St()), [Connects(c)] + steps) && St() == Exec(old(St()), [Connects(c)] + steps)
      ensures c.id == id && Served(steps, c, ms, crashed)
      ensures Valid()
    {
      ghost var st := St();
      c := StartConnection(id);
      steps := ServeConnection(c, ms, st, [Connects(c)]);
    }
  }
}
