/** What the recursive handlers leave behind, in closed form. */
module Effects {
  import opened Seqs
  import opened Objects
  import opened Options
  import opened BrokerState

  lemma {:induction false} TellAllLog(n: Net, exact: Subscribers, glob: Subscribers, es: seq<Event>)
    ensures var n' := TellAll(n, exact, glob, es);
            n'.log == n.log + es && n'.closed == n.closed && n'.conn.Keys == n.conn.Keys
    decreases |es|
  {
    if es != [] {
      TellAllLog(Tell(n, exact, glob, es[0]), exact, glob, es[1..]);
      ConcatAssoc(n.log, [es[0]], es[1..]);
      assert [es[0]] + es[1..] == es;
    }
  }

  function LostAll(list: seq<Service>): seq<Event> {
    seq(|list|, i requires 0 <= i < |list| => Lost(list[i]))
  }

  lemma LostAllHead(list: seq<Service>)
    requires list != []
    ensures LostAll(list) == [Lost(list[0])] + LostAll(list[1..])
  {
  }

  lemma {:induction false} WithdrawLog(n: Net, exact: Subscribers, glob: Subscribers, book: SpyBook, list: seq<Service>)
    ensures var n' := Withdraw(n, exact, glob, book, list);
            n'.log == n.log + LostAll(list) && n.closed <= n'.closed && n'.conn.Keys == n.conn.Keys
    decreases |list|
  {
    if list != [] {
      var n1 := Tell(n, exact, glob, Lost(list[0]));
      WithdrawLog(n1.(closed := n1.closed + set c | c in SpiesOf(book, list[0])), exact, glob, book, list[1..]);
      ConcatAssoc(n.log, [Lost(list[0])], LostAll(list[1..]));
      LostAllHead(list);
    }
  }

  predicate HasKey(list: seq<Service>, name: string, ident: string) {
    exists s :: s in list && Keyed(s) == (name, ident)
  }

  /** Withdrawal is by key: what goes is what is registered under the key of a listed service. */
  lemma {:induction false} UnregisterAllLookup(services: Registry, list: seq<Service>, name: string, ident: string)
    ensures Lookup(UnregisterAll(services, list), name, ident) ==
            if HasKey(list, name, ident) then None else Lookup(services, name, ident)
    decreases |list|
  {
    if list != [] {
      UnregisterAllLookup(Unregister(services, list[0]), list[1..], name, ident);
      assert forall s :: s in list <==> s == list[0] || s in list[1..];
      assert HasKey(list, name, ident) <==> Keyed(list[0]) == (name, ident) || HasKey(list[1..], name, ident);
    }
  }

  function DepartLog(st: State, c: Client, exactKeys: seq<string>, globKeys: seq<string>): seq<Event> {
    LostAll(Owned(st, c)) + (Dropped(st.exact, exactKeys, c) + Dropped(st.glob, globKeys, c)) + [LostClient(c.id, NameOf(st, c))]
  }

  lemma FarewellLog(st: State, c: Client, exactKeys: seq<string>, globKeys: seq<string>)
    ensures var n := Farewell(st, c, exactKeys, globKeys);
            && n.log == st.net.log + DepartLog(st, c, exactKeys, globKeys)
            && n.conn.Keys == st.net.conn.Keys
            && st.net.closed <= n.closed
  {
    var es := Dropped(st.exact, exactKeys, c) + Dropped(st.glob, globKeys, c);
    var n1 := Withdraw(st.net, st.exact, st.glob, st.book, Owned(st, c));
    WithdrawLog(st.net, st.exact, st.glob, st.book, Owned(st, c));
    TellAllLog(n1, DropFrom(st.exact, c), DropFrom(st.glob, c), es);
    LastTold(st, c, exactKeys, globKeys);
    ConcatAssoc(st.net.log, LostAll(Owned(st, c)), es);
    ConcatAssoc(st.net.log, LostAll(Owned(st, c)) + es, [LostClient(c.id, NameOf(st, c))]);
  }

  lemma LastTold(st: State, c: Client, exactKeys: seq<string>, globKeys: seq<string>)
    ensures var exact, glob := DropFrom(st.exact, c), DropFrom(st.glob, c);
            var n1 := Withdraw(st.net, st.exact, st.glob, st.book, Owned(st, c));
            var n2 := TellAll(n1, exact, glob, Dropped(st.exact, exactKeys, c) + Dropped(st.glob, globKeys, c));
            var n := Farewell(st, c, exactKeys, globKeys);
            n.log == n2.log + [LostClient(c.id, NameOf(st, c))] && n.closed == n2.closed && n.conn.Keys == n2.conn.Keys
  {
  }
}
