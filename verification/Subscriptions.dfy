/** The two subscriber indexes: what subscribing keeps, removal, and delivery. */
module Subscriptions {
  import opened Seqs
  import opened Objects
  import opened Glob
  import opened BrokerState

  function IndexOfPattern(st: State, p: string): Subscribers {
    if HasStar(p) then st.glob else st.exact
  }

  /** A key's subscribers: at least one, each once, each connected and with the key in its list. */
  ghost predicate KeyOk(st: State, m: Subscribers, k: string) {
    k in m ==>
      && m[k] != [] && NoDup(m[k])
      && forall c :: c in m[k] ==> Connected(st, c) && k in Patterns(st, c)
  }

  ghost predicate ClientOk(st: State, c: Client) {
    && NoDup(Patterns(st, c))
    && forall p :: p in Patterns(st, c) ==> c in Clients(IndexOfPattern(st, p), p)
  }

  /** Each index holds the keys of its kind, and together they agree with the clients' own lists. */
  ghost predicate Inv(st: State) {
    && (forall id :: id in st.clients ==> st.clients[id].id == id && st.clients[id] in st.names)
    && (forall k :: k in st.exact ==> !HasStar(k))
    && (forall k :: k in st.glob ==> HasStar(k))
    && (forall k :: KeyOk(st, st.exact, k))
    && (forall k :: KeyOk(st, st.glob, k))
    && (forall id :: id in st.clients ==> ClientOk(st, st.clients[id]))
  }

  lemma SubscribedIffIndexed(st: State, c: Client, p: string)
    requires Inv(st) && Connected(st, c)
    ensures p in Patterns(st, c) <==> c in Clients(IndexOfPattern(st, p), p)
  {
    assert ClientOk(st, st.clients[c.id]);
    assert KeyOk(st, st.exact, p) && KeyOk(st, st.glob, p);
  }

  lemma AddToKey(st: State, st': State, m: Subscribers, c: Client, p: string, k: string)
    requires Inv(st) && Connected(st, c) && p !in Patterns(st, c)
    requires st'.clients == st.clients && st'.subscribes == st.subscribes[c := Patterns(st, c) + [p]]
    requires KeyOk(st, m, k)
    ensures KeyOk(st', m, k)
    ensures c !in Clients(m, p) ==> KeyOk(st', AddTo(m, p, c), k)
  {
    forall d | d in Clients(m, k)
      ensures Connected(st', d) && k in Patterns(st', d)
    {
      assert Connected(st, d) && k in Patterns(st, d);
    }
  }

  lemma SubscribeKey(st: State, c: Client, p: string, k: string)
    requires Inv(st) && Connected(st, c) && p !in Patterns(st, c)
    requires c !in Clients(IndexOfPattern(st, p), p)
    ensures var st' := Subscribing(st, c, p); KeyOk(st', st'.exact, k) && KeyOk(st', st'.glob, k)
  {
    var st' := Subscribing(st, c, p);
    assert KeyOk(st, st.exact, k) && KeyOk(st, st.glob, k);
    AddToKey(st, st', st.exact, c, p, k);
    AddToKey(st, st', st.glob, c, p, k);
  }

  lemma SubscribeClient(st: State, c: Client, p: string, d: Client)
    requires ClientOk(st, d) && p !in Patterns(st, c)
    ensures ClientOk(Subscribing(st, c, p), d)
  {
  }

  lemma SubscribeKeeps(st: State, c: Client, p: string)
    requires Inv(st) && Connected(st, c)
    ensures Inv(Subscribing(st, c, p))
  {
    var st' := Subscribing(st, c, p);
    SubscribedIffIndexed(st, c, p);
    if p !in Patterns(st, c) {
      forall k
        ensures KeyOk(st', st'.exact, k) && KeyOk(st', st'.glob, k)
      {
        SubscribeKey(st, c, p, k);
      }
      forall id | id in st'.clients
        ensures ClientOk(st', st'.clients[id])
      {
        assert ClientOk(st, st.clients[id]);
        SubscribeClient(st, c, p, st.clients[id]);
      }
    }
  }

  /**
   * A departing client leaves both indexes, every other client keeps its place
   * count under every key, and no key is left empty.
   */
  lemma DropIsComplete(st: State, m: Subscribers, c: Client, k: string)
    requires KeyOk(st, m, k)
    ensures var list, list' := Clients(m, k), Clients(DropFrom(m, c), k);
            && multiset(list') == multiset(list)[c := 0]
            && (k in DropFrom(m, c) <==> exists d :: d in list && d != c)
            && (k in DropFrom(m, c) ==> DropFrom(m, c)[k] != [] && NoDup(DropFrom(m, c)[k]))
  {
    if k in m {
      var list := m[k];
      NoDupCount(list, c);
      if c in list {
        OverwriteMatchesExact(list, c);
        var i := IndexOf(list, c);
        OverwriteOne(list, c, i);
        SwapRemoveUnique(list, i);
        if |list| > 1 {
          var j := if i == 0 then 1 else 0;
          assert list[j] in list && list[j] != c;
        } else {
          assert list == [c];
        }
      } else {
        assert list[0] in list;
      }
    }
  }

  lemma DropMembers(st: State, m: Subscribers, c: Client, k: string)
    requires KeyOk(st, m, k)
    ensures forall d :: d in Clients(DropFrom(m, c), k) <==> d in Clients(m, k) && d != c
  {
    DropIsComplete(st, m, c, k);
    var list, list' := Clients(m, k), Clients(DropFrom(m, c), k);
    forall d
      ensures d in list' <==> d in list && d != c
    {
      assert d in list' <==> d in multiset(list');
      assert d in list <==> d in multiset(list);
    }
  }

  lemma DropKey(st: State, st': State, m: Subscribers, c: Client, k: string)
    requires Inv(st) && Connected(st, c) && KeyOk(st, m, k)
    requires st'.clients == st.clients - {c.id} && st'.subscribes == st.subscribes
    ensures KeyOk(st', DropFrom(m, c), k)
  {
    DropIsComplete(st, m, c, k);
    DropMembers(st, m, c, k);
    forall d | d in Clients(DropFrom(m, c), k)
      ensures Connected(st', d) && k in Patterns(st', d)
    {
      assert Connected(st, d) && d != c;
    }
  }

  lemma DropClient(st: State, st': State, c: Client, d: Client)
    requires Inv(st) && Connected(st, c) && Connected(st, d) && d != c
    requires st'.exact == DropFrom(st.exact, c) && st'.glob == DropFrom(st.glob, c) && st'.subscribes == st.subscribes
    ensures ClientOk(st', d)
  {
    assert ClientOk(st, st.clients[d.id]);
    forall p | p in Patterns(st', d)
      ensures d in Clients(IndexOfPattern(st', p), p)
    {
      assert KeyOk(st, st.exact, p) && KeyOk(st, st.glob, p);
      DropMembers(st, IndexOfPattern(st, p), c, p);
    }
  }

  lemma DepartKeeps(st: State, c: Client, exactKeys: seq<string>, globKeys: seq<string>)
    requires Inv(st) && Connected(st, c)
    ensures Inv(Depart(st, c, exactKeys, globKeys))
  {
    var st' := Depart(st, c, exactKeys, globKeys);
    forall k
      ensures KeyOk(st', st'.exact, k) && KeyOk(st', st'.glob, k)
    {
      assert KeyOk(st, st.exact, k) && KeyOk(st, st.glob, k);
      DropKey(st, st', st.exact, c, k);
      DropKey(st, st', st.glob, c, k);
    }
    forall id | id in st'.clients
      ensures ClientOk(st', st'.clients[id])
    {
      DropClient(st, st', c, st.clients[id]);
    }
  }

  // --------------------------------------------------- lost-subscriber events

  lemma {:induction false} DroppedCount(st: State, m: Subscribers, keys: seq<string>, c: Client, p: string)
    requires forall k :: KeyOk(st, m, k)
    requires NoDup(keys)
    ensures multiset(Dropped(m, keys, c))[LostSubscriber(p, c.id)] == if p in keys && c in Clients(m, p) then 1 else 0
    ensures forall e :: e in Dropped(m, keys, c) ==> e.LostSubscriber? && e.id == c.id
    decreases |keys|
  {
    if keys != [] {
      DroppedCount(st, m, keys[1..], c, p);
      assert KeyOk(st, m, keys[0]);
      var n := multiset(Clients(m, keys[0]))[c];
      NoDupCount(Clients(m, keys[0]), c);
      var head := seq(n, _ => LostSubscriber(keys[0], c.id));
      assert head == if n == 1 then [LostSubscriber(keys[0], c.id)] else [];
      assert p in keys <==> p == keys[0] || p in keys[1..];
      assert p == keys[0] ==> p !in keys[1..];
    }
  }

  /** A departure publishes exactly one lost-subscriber event per subscription of the client. */
  lemma OneEventPerSubscription(st: State, c: Client, exactKeys: seq<string>, globKeys: seq<string>, p: string)
    requires Inv(st) && Connected(st, c)
    requires Enumerates(exactKeys, st.exact) && Enumerates(globKeys, st.glob)
    ensures var es := Dropped(st.exact, exactKeys, c) + Dropped(st.glob, globKeys, c);
            && multiset(es)[LostSubscriber(p, c.id)] == (if p in Patterns(st, c) then 1 else 0)
            && forall e :: e in es ==> e.LostSubscriber? && e.id == c.id
  {
    DroppedCount(st, st.exact, exactKeys, c, p);
    DroppedCount(st, st.glob, globKeys, c, p);
    SubscribedIffIndexed(st, c, p);
  }

  // ----------------------------------------------------------------- delivery

  /** The clients that a scan of every connected client's own list would choose. */
  ghost predicate Wants(st: State, c: Client, topic: string) {
    exists p :: p in Patterns(st, c) && Match(p, topic)
  }

  ghost predicate Indexed(st: State, c: Client, topic: string) {
    exists p :: p in Patterns(st, c) && IndexMatch(p, topic)
  }

  /** The indexes choose the connected clients with a pattern that the indexes match. */
  lemma RecipientsAre(st: State, topic: string, c: Client)
    requires Inv(st)
    ensures c in Recipients(st.exact, st.glob, topic) <==> Connected(st, c) && Indexed(st, c, topic)
  {
    if c in Recipients(st.exact, st.glob, topic) {
      if c in Clients(st.exact, topic) {
        assert KeyOk(st, st.exact, topic) && !HasStar(topic);
        assert topic in Patterns(st, c) && IndexMatch(topic, topic);
      } else {
        var p :| p in st.glob && Match(p, topic) && c in st.glob[p];
        assert KeyOk(st, st.glob, p) && IndexMatch(p, topic);
      }
    }
    if Connected(st, c) && Indexed(st, c, topic) {
      var p :| p in Patterns(st, c) && IndexMatch(p, topic);
      SubscribedIffIndexed(st, c, p);
    }
  }

  /** The patterns of a client for which the indexes honour the documented language. */
  ghost predicate Plain(st: State, c: Client) {
    forall p :: p in Patterns(st, c) ==> HasStar(p) || Literal(p)
  }

  /**
   * A publish writes one copy to each client that a scan would choose and none
   * to the others, as long as every pattern has a star or is a plain name. A
   * client with any other pattern is served differently for some event, unless
   * another of its patterns makes up for it.
   */
  lemma DeliveryRefinesScan(st: State, topic: string, payload: Payload, c: Client)
    requires Inv(st) && c in st.net.conn && c !in st.net.closed
    requires Plain(st, c)
    ensures Written(DoPublish(st, topic, payload), c) ==
            Written(st, c) + if Connected(st, c) && Wants(st, c, topic) then [Publish(topic, payload)] else []
  {
    RecipientsAre(st, topic, c);
    forall p | p in Patterns(st, c)
      ensures IndexMatch(p, topic) <==> Match(p, topic)
    {
      IndexHonoursPattern(p);
    }
    assert Indexed(st, c, topic) <==> Wants(st, c, topic);
    assert Written(st, c) + [] == Written(st, c);
  }

  /** For a client with one subscription, the condition on its pattern is exact. */
  lemma DeliveryRefinesScanExactly(st: State, c: Client, p: string)
    requires Inv(st) && Connected(st, c) && Patterns(st, c) == [p]
    ensures (forall topic :: c in Recipients(st.exact, st.glob, topic) <==> Wants(st, c, topic)) <==> '*' in p || Literal(p)
  {
    forall topic
      ensures c in Recipients(st.exact, st.glob, topic) <==> IndexMatch(p, topic)
      ensures Wants(st, c, topic) <==> Match(p, topic)
    {
      RecipientsAre(st, topic, c);
    }
    IndexHonoursPattern(p);
  }
}
