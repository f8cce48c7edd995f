/**
 * Runs from a new broker in which what the theorems exclude does happen: their
 * conditions are needed, and can be met or broken by clients alone.
 */
module Witnesses {
  import opened Seqs
  import opened Objects
  import opened Options
  import opened BrokerState
  import opened Listings
  import R = Requests
  import C = Composition
  import Memory
  import Registry
  import Runs

  /** A run that any of the theorems admits. */
  ghost predicate Orderly(st: State, steps: seq<Step>) {
    Legal(st, steps) && RenamesOrderly(st, steps) && RegistrationsOrderly(st, steps)
  }

  lemma {:induction false} RenamesSnoc(st: State, steps: seq<Step>, step: Step)
    requires Legal(st, steps) && RenamesOrderly(st, steps) && Enabled(Exec(st, steps), step) && !step.Renames?
    requires Legal(st, steps + [step])
    ensures RenamesOrderly(st, steps + [step])
    decreases |steps|
  {
    if steps == [] {
      assert steps + [step] == [step] && [step][1..] == [];
    } else {
      assert (steps + [step])[1..] == steps[1..] + [step];
      RenamesSnoc(Apply(st, steps[0]), steps[1..], step);
    }
  }

  lemma {:induction false} RegistrationsSnoc(st: State, steps: seq<Step>, step: Step)
    requires Legal(st, steps) && RegistrationsOrderly(st, steps) && Enabled(Exec(st, steps), step)
    requires step.Registers? ==> Connected(Exec(st, steps), step.s.client)
    requires Legal(st, steps + [step])
    ensures RegistrationsOrderly(st, steps + [step])
    decreases |steps|
  {
    if steps == [] {
      assert steps + [step] == [step] && [step][1..] == [];
    } else {
      assert (steps + [step])[1..] == steps[1..] + [step];
      RegistrationsSnoc(Apply(st, steps[0]), steps[1..], step);
    }
  }

  /** One more step of an orderly run from a new broker. */
  lemma Snoc(steps: seq<Step>, step: Step)
    requires Orderly(INIT, steps) && Enabled(Exec(INIT, steps), step) && !step.Renames?
    requires step.Registers? ==> Connected(Exec(INIT, steps), step.s.client)
    ensures Orderly(INIT, steps + [step]) && Exec(INIT, steps + [step]) == Apply(Exec(INIT, steps), step)
  {
    Runs.LegalSnoc(INIT, steps, step);
    RenamesSnoc(INIT, steps, step);
    RegistrationsSnoc(INIT, steps, step);
  }

  lemma {:induction false} StartupsSnoc(steps: seq<Step>, step: Step)
    ensures Runs.Startups(steps + [step]) ==
            Runs.Startups(steps) + if step.Registers? && step.s.name == "cellaserv" then 1 else 0
  {
    if steps == [] {
      assert steps + [step] == [step];
    } else {
      StartupsSnoc(steps[1..], step);
      assert (steps + [step])[1..] == steps[1..] + [step];
    }
  }

  /** With no subscribers, an event is written to no one. */
  lemma Untold(n: Net, e: Event)
    ensures Tell(n, map[], map[], e) == n.(log := n.log + [e])
  {
    assert Recipients(map[], map[], Topic(e)) == {};
  }

  /** A connected client that has done nothing and been told nothing. */
  ghost predicate Idle(st: State, c: Client) {
    && Connected(st, c) && c in st.names && c in st.net.conn && c in st.owned && c in st.spying
    && Written(st, c) == [] && Owned(st, c) == [] && Spying(st, c) == [] && Open(st, c)
  }

  ghost predicate Open(st: State, c: Client) { c !in st.net.closed }

  /** The clients `cs` have connected, and that is all. */
  ghost predicate Blank(st: State, cs: set<Client>) {
    && st.names.Keys == cs && st.services == map[] && st.exact == map[] && st.glob == map[]
    && st.table == R.EMPTY_TABLE && st.book == SpyBook(map[], map[], map[]) && !st.started && !st.crashed
    && st.net.closed == {}
  }

  lemma Arrives(st: State, cs: set<Client>, c: Client)
    requires Blank(st, cs) && c !in cs && c.id !in st.clients
    ensures Enabled(st, Connects(c)) && Blank(Apply(st, Connects(c)), cs + {c}) && Idle(Apply(st, Connects(c)), c)
    ensures Apply(st, Connects(c)).clients == st.clients[c.id := c]
  {
    Untold(Admit(st, c).net, NewClient(c.id, ""));
  }

  lemma StaysIdle(st: State, cs: set<Client>, c: Client, d: Client)
    requires Blank(st, cs) && Idle(st, d) && d != c && d.id != c.id
    ensures Idle(Connect(st, c), d)
  {
    Untold(Admit(st, c).net, NewClient(c.id, ""));
  }

  /** One more client arrives; those who are idle stay so. */
  lemma Joins(steps: seq<Step>, cs: set<Client>, c: Client)
    requires Orderly(INIT, steps) && Blank(Exec(INIT, steps), cs) && c !in cs && c.id !in Exec(INIT, steps).clients
    ensures Orderly(INIT, steps + [Connects(c)])
    ensures var st, st' := Exec(INIT, steps), Exec(INIT, steps + [Connects(c)]);
            && Blank(st', cs + {c}) && Idle(st', c) && st'.clients == st.clients[c.id := c]
            && forall d :: Idle(st, d) && d.id != c.id ==> Idle(st', d)
  {
    var st := Exec(INIT, steps);
    Arrives(st, cs, c);
    Snoc(steps, Connects(c));
    forall d | Idle(st, d) && d.id != c.id
      ensures Idle(Connect(st, c), d)
    {
      StaysIdle(st, cs, c, d);
    }
  }

  /** The clients `cs` have connected, one has registered `s`, and that is all. */
  ghost predicate Serving(st: State, cs: set<Client>, s: Service, none: array<Client>) {
    && st.names.Keys == cs && st.services == map[s.name := map[s.ident := s]] && st.exact == map[] && st.glob == map[]
    && st.table == R.EMPTY_TABLE && st.book == SpyBook(map[s := Slice(none, 0)], map[none := []], map[none := s])
    && !st.crashed && st.net.closed == {}
  }

  lemma ServiceArrives(st: State, cs: set<Client>, s: Service, none: array<Client>)
    requires Blank(st, cs) && s.client in cs
    ensures Enabled(st, Registers(s, none)) && Serving(Apply(st, Registers(s, none)), cs, s, none)
    ensures Apply(st, Registers(s, none)).clients == st.clients
  {
    Untold(st.net, NewService(s.client.id, s.name, s.ident));
  }

  lemma IdleThrough(st: State, cs: set<Client>, s: Service, none: array<Client>, c: Client)
    requires Blank(st, cs) && Idle(st, c) && c != s.client
    ensures Idle(Registering(st, s, none), c)
  {
    Untold(st.net, NewService(s.client.id, s.name, s.ident));
  }

  // ---------------------------------------------- the sender of a request departs

  /** `d` and `c` connect, and `d` registers `s`. */
  function Opening(d: Client, c: Client, s: Service, none: array<Client>): seq<Step> {
    [Connects(d)] + [Connects(c)] + [Registers(s, none)]
  }

  lemma Met(d: Client, c: Client)
    requires d.id != c.id
    ensures var steps := [Connects(d)] + [Connects(c)];
            && Orderly(INIT, steps)
            && var st := Exec(INIT, steps);
               Blank(st, {d, c}) && Idle(st, d) && Idle(st, c) && st.clients == map[d.id := d, c.id := c]
  {
    Joins([], {}, d);
    assert [] + [Connects(d)] == [Connects(d)];
    Joins([Connects(d)], {} + {d}, c);
    assert {} + {d} + {c} == {d, c};
  }

  lemma Opened(d: Client, c: Client, s: Service, none: array<Client>)
    requires d.id != c.id && s.client == d
    ensures var steps := Opening(d, c, s, none);
            && Orderly(INIT, steps) && Runs.Startups(steps) <= 1
            && var st := Exec(INIT, steps); Serving(st, {d, c}, s, none) && Idle(st, c)
  {
    Met(d, c);
    var steps := [Connects(d)] + [Connects(c)];
    ServiceArrives(Exec(INIT, steps), {d, c}, s, none);
    IdleThrough(Exec(INIT, steps), {d, c}, s, none, c);
    Snoc(steps, Registers(s, none));
    StartupsSnoc([Connects(d)], Connects(c));
    StartupsSnoc(steps, Registers(s, none));
  }

  /** Then `c` sends it a request and leaves. */
  function SenderLeaves(d: Client, c: Client, s: Service, none: array<Client>, m: Message): seq<Step> {
    Opening(d, c, s, none) + [Requests(c, m)] + [Departs(c, [], [])]
  }

  /** What is left: the request is tracked, its sender is not connected. */
  ghost predicate SenderGone(st: State, c: Client, s: Service, none: array<Client>, id: RequestId) {
    && id in st.table.pending && st.table.pending[id].sender == c
    && c.id !in st.clients && c in st.names && !st.crashed
    && st.book.spies.Keys == {s} && st.book.store.Keys == {none}
  }

  lemma Asked(st: State, cs: set<Client>, c: Client, s: Service, none: array<Client>, m: Message)
    requires Serving(st, cs, s, none) && Idle(st, c) && c != s.client && m.Request? && m.name == s.name && m.ident == s.ident
    ensures Enabled(st, Requests(c, m))
    ensures var st' := Apply(st, Requests(c, m));
            && m.id in st'.table.pending && st'.table.pending[m.id].sender == c
            && Connected(st', c) && c in st'.names && Spying(st', c) == []
            && st'.exact == map[] && st'.glob == map[] && st'.book == st.book && !st'.crashed
  {
    assert Target(st, m) == Some(s);
  }

  lemma Left(st: State, c: Client, s: Service, none: array<Client>, id: RequestId)
    requires id in st.table.pending && st.table.pending[id].sender == c
    requires Connected(st, c) && c in st.names && Spying(st, c) == [] && st.exact == map[] && st.glob == map[] && !st.crashed
    requires st.book.spies.Keys == {s} && st.book.store.Keys == {none}
    ensures Enabled(st, Departs(c, [], [])) && SenderGone(Apply(st, Departs(c, [], [])), c, s, none, id)
  {
  }

  lemma SenderHasLeft(d: Client, c: Client, s: Service, none: array<Client>, m: Message)
    requires d.id != c.id && s.client == d && m.Request? && m.name == s.name && m.ident == s.ident
    ensures var steps := SenderLeaves(d, c, s, none, m);
            Orderly(INIT, steps) && Runs.Startups(steps) <= 1 && SenderGone(Exec(INIT, steps), c, s, none, m.id)
  {
    var steps := Opening(d, c, s, none);
    Opened(d, c, s, none);
    Asked(Exec(INIT, steps), {d, c}, c, s, none, m);
    Snoc(steps, Requests(c, m));
    Left(Exec(INIT, steps + [Requests(c, m)]), c, s, none, m.id);
    Snoc(steps + [Requests(c, m)], Departs(c, [], []));
    StartupsSnoc(steps, Requests(c, m));
    StartupsSnoc(steps + [Requests(c, m)], Departs(c, [], []));
  }

  /**
   * The internal service may then rename the sender it looks up: the event log
   * no longer gives the listings, for it has a client that is not connected.
   */
  lemma RenamedAfterDeparture(d: Client, c: Client, s: Service, none: array<Client>, m: Message, name: string)
    requires d.id != c.id && s.client == d && m.Request? && m.name == s.name && m.ident == s.ident
    ensures var steps := SenderLeaves(d, c, s, none, m) + [Renames(c, name)];
            && Legal(INIT, steps) && Runs.Startups(steps) <= 1
            && List(Exec(INIT, steps)) != SeeAll(NOTHING, Exec(INIT, steps).net.log)
  {
    var steps := SenderLeaves(d, c, s, none, m);
    SenderHasLeft(d, c, s, none, m);
    LogReconstructsListings(steps);
    Runs.ReachableInv(steps);
    var st := Exec(INIT, steps);
    LateRename(st, c, name);
    Runs.LegalSnoc(INIT, steps, Renames(c, name));
    StartupsSnoc(steps, Renames(c, name));
  }

  lemma LateRename(st: State, c: Client, name: string)
    requires Runs.Inv(st) && c.id !in st.clients && List(st) == SeeAll(NOTHING, st.net.log)
    ensures List(Rename(st, c, name)) != SeeAll(NOTHING, Rename(st, c, name).net.log)
  {
    var e := ClientName(c.id, name);
    assert forall id :: id in st.clients ==> st.clients[id].id == id && st.clients[id] in st.names;
    RenameSeenExactly(st, c, name);
    SeeAllConcat(NOTHING, st.net.log, [e]);
    SeeOne(List(st), e);
  }

  /**
   * Or it may register a service for that sender: no connected client owns it,
   * so the registry and the clients' lists no longer mirror each other.
   */
  lemma RegisteredAfterDeparture(d: Client, c: Client, s: Service, none: array<Client>, m: Message,
          late: Service, empty: array<Client>)
    requires d.id != c.id && s.client == d && m.Request? && m.name == s.name && m.ident == s.ident
    requires late.client == c && late != s && empty != none
    ensures var steps := SenderLeaves(d, c, s, none, m) + [Registers(late, empty)];
            && Legal(INIT, steps)
            && var st := Exec(INIT, steps);
               Registered(st, late) && !Connected(st, c) && !Registry.Inv(st)
  {
    var steps := SenderLeaves(d, c, s, none, m);
    SenderHasLeft(d, c, s, none, m);
    Runs.ReachableMirror(steps);
    var st := Exec(INIT, steps);
    Registry.RegisterKeepsIffConnected(st, late, empty);
    Registry.RegisterLookup(st, late, empty, late.name, late.ident);
    Runs.LegalSnoc(INIT, steps, Registers(late, empty));
  }

  // ------------------------------------------------------- a spy that comes late

  /** Four clients have connected, and the first has registered `s`. */
  function Gathering(o: Client, r: Client, a: Client, b: Client, s: Service, none: array<Client>): seq<Step> {
    [Connects(o)] + [Connects(r)] + [Connects(a)] + [Connects(b)] + [Registers(s, none)]
  }

  ghost predicate Different(o: Client, r: Client, a: Client, b: Client) {
    o.id != r.id && o.id != a.id && o.id != b.id && r.id != a.id && r.id != b.id && a.id != b.id
  }

  lemma Gathered(o: Client, r: Client, a: Client, b: Client, s: Service, none: array<Client>)
    requires Different(o, r, a, b) && s.client == o
    ensures var steps := Gathering(o, r, a, b, s, none);
            && Orderly(INIT, steps)
            && var st := Exec(INIT, steps);
               Serving(st, {o, r, a, b}, s, none) && Idle(st, r) && Idle(st, a) && Idle(st, b) && Connected(st, o)
  {
    var four := Crowd(o, r, a, b);
    Crowded(o, r, a, b);
    var st := Exec(INIT, four);
    ServiceArrives(st, {o, r, a, b}, s, none);
    IdleThrough(st, {o, r, a, b}, s, none, r);
    IdleThrough(st, {o, r, a, b}, s, none, a);
    IdleThrough(st, {o, r, a, b}, s, none, b);
    Snoc(four, Registers(s, none));
  }

  function Crowd(o: Client, r: Client, a: Client, b: Client): seq<Step> {
    [Connects(o)] + [Connects(r)] + [Connects(a)] + [Connects(b)]
  }

  lemma Third(o: Client, r: Client, a: Client)
    requires o.id != r.id && o.id != a.id && r.id != a.id
    ensures var steps := [Connects(o)] + [Connects(r)] + [Connects(a)];
            && Orderly(INIT, steps)
            && var st := Exec(INIT, steps);
               Blank(st, {o, r, a}) && Idle(st, o) && Idle(st, r) && Idle(st, a)
               && st.clients == map[o.id := o, r.id := r, a.id := a]
  {
    Met(o, r);
    Joins([Connects(o)] + [Connects(r)], {o, r}, a);
    assert {o, r} + {a} == {o, r, a};
  }

  lemma Crowded(o: Client, r: Client, a: Client, b: Client)
    requires Different(o, r, a, b)
    ensures Orderly(INIT, Crowd(o, r, a, b))
    ensures var st := Exec(INIT, Crowd(o, r, a, b));
            Blank(st, {o, r, a, b}) && Idle(st, o) && Idle(st, r) && Idle(st, a) && Idle(st, b)
  {
    Third(o, r, a);
    Joins([Connects(o)] + [Connects(r)] + [Connects(a)], {o, r, a}, b);
    assert {o, r, a} + {b} == {o, r, a, b};
  }

  /** The array behind the spies of `s` is `room`, holding `list`, of which `len` are spies. */
  ghost predicate SpiedBy(b: SpyBook, s: Service, room: array<Client>, list: seq<Client>, len: nat) {
    s in b.spies && b.spies[s] == Slice(room, len) && room in b.store && b.store[room] == list && len <= |list|
  }

  /** What the steps below leave alone. */
  ghost predicate Scene(st: State, o: Client, r: Client, b: Client, s: Service) {
    && Connected(st, o) && Connected(st, r) && Connected(st, b) && Registered(st, s) && s.client == o
    && r in st.net.conn && b in st.net.conn && b in st.names && st.net.closed == {} && !st.crashed
    && st.exact == map[] && st.glob == map[]
  }

  lemma SendOne(n: Net, c: Client, m: Message)
    ensures SendEach(n, [c], m) == Send(n, c, m)
  {
    assert [c][1..] == [];
  }

  /** `a` begins to spy; the new array has `spare` places more than needed. */
  lemma EarlySpies(st: State, cs: set<Client>, o: Client, r: Client, a: Client, b: Client, s: Service, none: array<Client>,
          room: array<Client>, spare: nat)
    requires Serving(st, cs, s, none) && Connected(st, o) && s.client == o && Idle(st, r) && Idle(st, a) && Idle(st, b)
    requires Different(o, r, a, b) && room != none
    ensures Enabled(st, SpiesOn(a, s, room, spare))
    ensures var st' := Apply(st, SpiesOn(a, s, room, spare));
            && Scene(st', o, r, b, s) && SpiedBy(st'.book, s, room, seq(1 + spare, _ => a), 1)
            && st'.book.store.Keys == {none, room} && Written(st', b) == []
            && Connected(st', a) && Owned(st', a) == [] && Spying(st', a) == [s]
            && st'.table == R.EMPTY_TABLE
  {
    assert [] + seq(1 + spare, _ => a) == seq(1 + spare, _ => a);
  }

  /** `r` asks, and `a` is sent a copy. */
  lemma EarlyCopy(st: State, o: Client, r: Client, a: Client, b: Client, s: Service, room: array<Client>,
          list: seq<Client>, m: Message)
    requires Scene(st, o, r, b, s) && SpiedBy(st.book, s, room, list, 1) && list[0] == a && st.table == R.EMPTY_TABLE
    requires Different(o, r, a, b) && m.Request? && m.name == s.name && m.ident == s.ident && Written(st, b) == []
    ensures Enabled(st, Requests(r, m))
    ensures var st' := Apply(st, Requests(r, m));
            && Scene(st', o, r, b, s) && st'.book == st.book && st'.clients == st.clients
            && st'.owned == st.owned && st'.spying == st.spying
            && st'.table.pending == map[m.id := R.Entry(r, 0, Slice(room, 1))] && Written(st', b) == []
  {
    assert Target(st, m) == Some(s);
    assert SpiesOf(st.book, s) == [a];
    SendOne(Send(st.net, o, m), a, m);
  }

  lemma LateSpies(st: State, o: Client, r: Client, a: Client, b: Client, s: Service,
          none: array<Client>, room: array<Client>, more: array<Client>)
    requires Scene(st, o, r, b, s) && SpiedBy(st.book, s, room, [a, a], 1) && st.book.store.Keys == {none, room}
    requires Spying(st, a) == [s] && Different(o, r, a, b) && more != none && more != room
    ensures Enabled(st, SpiesOn(b, s, more, 0))
    ensures var st' := Apply(st, SpiesOn(b, s, more, 0));
            && Scene(st', o, r, b, s) && SpiedBy(st'.book, s, room, [a, b], 2)
            && st'.clients == st.clients && st'.table == st.table && st'.net == st.net
            && Spying(st', a) == [s] && st'.owned == st.owned
  {
    assert [a, a][1 := b] == [a, b];
  }

  lemma FirstSpyRemoved(b: SpyBook, s: Service, room: array<Client>, x: Client, y: Client)
    requires SpiedBy(b, s, room, [x, y], 2) && x != y
    ensures SpiedBy(RemoveSpies(b, [s], x), s, room, [y, y], 1)
    ensures RemoveSpies(b, [s], x).store.Keys == b.store.Keys
  {
    assert SpiesOf(b, s) == [x, y];
    assert IndexOf([x, y], x) == 0;
    assert [x, y][0 := y] == [y, y];
    assert [s][1..] == [];
  }

  lemma QuietFarewell(st: State, c: Client)
    requires Owned(st, c) == [] && st.exact == map[] && st.glob == map[]
    ensures Farewell(st, c, [], []) == st.net.(log := st.net.log + [LostClient(c.id, NameOf(st, c))])
  {
    assert DropFrom(map[], c) == map[];
    Untold(st.net, LostClient(c.id, NameOf(st, c)));
  }

  lemma QuietDeparture(st: State, c: Client)
    requires Owned(st, c) == [] && st.exact == map[] && st.glob == map[]
    ensures Depart(st, c, [], []) ==
            st.(clients := st.clients - {c.id}, book := RemoveSpies(st.book, Spying(st, c), c),
                net := st.net.(log := st.net.log + [LostClient(c.id, NameOf(st, c))]))
  {
    QuietFarewell(st, c);
    assert DropFrom(map[], c) == map[];
  }

  /** `a`, the only spy or the first of two, leaves. */
  lemma EarlyLeaves(st: State, o: Client, r: Client, a: Client, b: Client, s: Service, room: array<Client>,
          list: seq<Client>, len: nat)
    requires Scene(st, o, r, b, s) && Different(o, r, a, b)
    requires Connected(st, a) && Owned(st, a) == [] && Spying(st, a) == [s] && Written(st, b) == []
    requires SpiedBy(RemoveSpies(st.book, [s], a), s, room, list, len)
    requires RemoveSpies(st.book, [s], a).store.Keys == st.book.store.Keys
    ensures Enabled(st, Departs(a, [], []))
    ensures var st' := Apply(st, Departs(a, [], []));
            && Scene(st', o, r, b, s) && SpiedBy(st'.book, s, room, list, len) && st'.table == st.table && Written(st', b) == []
            && st'.book.store.Keys == st.book.store.Keys
  {
    QuietDeparture(st, a);
  }

  /** What is left: the request's snapshot is read from a place that now holds `b`. */
  ghost predicate Astray(st: State, o: Client, r: Client, b: Client, s: Service, room: array<Client>,
          list: seq<Client>, id: RequestId) {
    && Scene(st, o, r, b, s) && SpiedBy(st.book, s, room, list, 1) && list[0] == b && Written(st, b) == []
    && st.table.pending == map[id := R.Entry(r, 0, Slice(room, 1))]
  }

  lemma ReplyGoesAstray(st: State, o: Client, r: Client, b: Client, s: Service, room: array<Client>, list: seq<Client>,
          id: RequestId, answer: Answer)
    requires Astray(st, o, r, b, s, room, list, id) && r.id != b.id
    ensures Enabled(st, Replies(o, id, answer))
    ensures Written(Apply(st, Replies(o, id, answer)), b) == [Reply(id, answer)]
  {
    assert Contents(st.book, Slice(room, 1)) == [b];
    SendOne(st.net, b, Reply(id, answer));
  }

  /** `a` spies on the service, and `r` sends it a request. */
  function CopiedRequest(o: Client, r: Client, a: Client, b: Client, s: Service,
          none: array<Client>, room: array<Client>, spare: nat, m: Message): seq<Step> {
    Gathering(o, r, a, b, s, none) + [SpiesOn(a, s, room, spare)] + [Requests(r, m)]
  }

  lemma RequestCopied(o: Client, r: Client, a: Client, b: Client, s: Service,
          none: array<Client>, room: array<Client>, spare: nat, m: Message)
    requires Different(o, r, a, b) && s.client == o && m.Request? && m.name == s.name && m.ident == s.ident
    requires none != room
    ensures var steps := CopiedRequest(o, r, a, b, s, none, room, spare, m);
            && Orderly(INIT, steps)
            && var st := Exec(INIT, steps);
               && Scene(st, o, r, b, s) && SpiedBy(st.book, s, room, seq(1 + spare, _ => a), 1) && Written(st, b) == []
               && st.book.store.Keys == {none, room} && Connected(st, a) && Owned(st, a) == [] && Spying(st, a) == [s]
               && st.table.pending == map[m.id := R.Entry(r, 0, Slice(room, 1))]
  {
    var g := Gathering(o, r, a, b, s, none);
    Gathered(o, r, a, b, s, none);
    EarlySpies(Exec(INIT, g), {o, r, a, b}, o, r, a, b, s, none, room, spare);
    Snoc(g, SpiesOn(a, s, room, spare));
    var g1 := g + [SpiesOn(a, s, room, spare)];
    EarlyCopy(Exec(INIT, g1), o, r, a, b, s, room, seq(1 + spare, _ => a), m);
    Snoc(g1, Requests(r, m));
  }

  lemma OnlySpyRemoved(b: SpyBook, s: Service, room: array<Client>, x: Client)
    requires SpiedBy(b, s, room, [x], 1)
    ensures SpiedBy(RemoveSpies(b, [s], x), s, room, [x], 0)
    ensures RemoveSpies(b, [s], x).store.Keys == b.store.Keys
  {
    assert SpiesOf(b, s) == [x];
    assert IndexOf([x], x) == 0;
    assert [x][0 := x] == [x];
    assert [s][1..] == [];
  }

  /** The first spy after the only one has left takes its place in the array. */
  lemma NextSpies(st: State, o: Client, r: Client, a: Client, b: Client, s: Service, room: array<Client>, more: array<Client>)
    requires Scene(st, o, r, b, s) && SpiedBy(st.book, s, room, [a], 0) && more !in st.book.store
    ensures Enabled(st, SpiesOn(b, s, more, 0))
    ensures var st' := Apply(st, SpiesOn(b, s, more, 0));
            && Scene(st', o, r, b, s) && SpiedBy(st'.book, s, room, [b], 1)
            && st'.table == st.table && st'.net == st.net
  {
    assert [a][0 := b] == [b];
  }

  /** After the request `a` leaves, and then `b` begins to spy. */
  function LateAppend(o: Client, r: Client, a: Client, b: Client, s: Service,
          none: array<Client>, room: array<Client>, more: array<Client>, m: Message): seq<Step> {
    CopiedRequest(o, r, a, b, s, none, room, 0, m) + [Departs(a, [], [])] + [SpiesOn(b, s, more, 0)]
  }

  lemma OnlySpyLeft(o: Client, r: Client, a: Client, b: Client, s: Service,
          none: array<Client>, room: array<Client>, m: Message)
    requires Different(o, r, a, b) && s.client == o && m.Request? && m.name == s.name && m.ident == s.ident && none != room
    ensures var steps := CopiedRequest(o, r, a, b, s, none, room, 0, m) + [Departs(a, [], [])];
            && Orderly(INIT, steps)
            && var st := Exec(INIT, steps);
               && Scene(st, o, r, b, s) && SpiedBy(st.book, s, room, [a], 0) && st.book.store.Keys == {none, room}
               && Written(st, b) == [] && st.table.pending == map[m.id := R.Entry(r, 0, Slice(room, 1))]
  {
    var before := CopiedRequest(o, r, a, b, s, none, room, 0, m);
    RequestCopied(o, r, a, b, s, none, room, 0, m);
    var st := Exec(INIT, before);
    assert seq(1, _ => a) == [a];
    OnlySpyRemoved(st.book, s, room, a);
    EarlyLeaves(st, o, r, a, b, s, room, [a], 0);
    Snoc(before, Departs(a, [], []));
  }

  lemma AppendedLate(o: Client, r: Client, a: Client, b: Client, s: Service,
          none: array<Client>, room: array<Client>, more: array<Client>, m: Message)
    requires Different(o, r, a, b) && s.client == o && m.Request? && m.name == s.name && m.ident == s.ident
    requires none != room && room != more && more != none
    ensures var steps := LateAppend(o, r, a, b, s, none, room, more, m);
            Orderly(INIT, steps) && Astray(Exec(INIT, steps), o, r, b, s, room, [b], m.id)
  {
    var left := CopiedRequest(o, r, a, b, s, none, room, 0, m) + [Departs(a, [], [])];
    OnlySpyLeft(o, r, a, b, s, none, room, m);
    NextSpies(Exec(INIT, left), o, r, a, b, s, room, more);
    Snoc(left, SpiesOn(b, s, more, 0));
  }

  /**
   * A reply that goes astray: `a` spies when `r` sends its request and is sent a
   * copy; `a` leaves, and `b`, which begins to spy only then, is appended in the
   * place that the request's snapshot reads. The reply is copied to `b`, which
   * has never been written anything before, the request included. No array is
   * larger than it has to be.
   */
  lemma LateAppendGetsReply(o: Client, r: Client, a: Client, b: Client, s: Service,
          none: array<Client>, room: array<Client>, more: array<Client>, m: Message, answer: Answer)
    requires Different(o, r, a, b) && s.client == o && m.Request? && m.name == s.name && m.ident == s.ident
    requires none != room && room != more && more != none
    ensures var steps := LateAppend(o, r, a, b, s, none, room, more, m);
            && Legal(INIT, steps) && Written(Exec(INIT, steps), b) == []
            && Legal(INIT, steps + [Replies(o, m.id, answer)])
            && Written(Exec(INIT, steps + [Replies(o, m.id, answer)]), b) == [Reply(m.id, answer)]
  {
    var steps := LateAppend(o, r, a, b, s, none, room, more, m);
    AppendedLate(o, r, a, b, s, none, room, more, m);
    ReplyGoesAstray(Exec(INIT, steps), o, r, b, s, room, [b], m.id, answer);
    Runs.LegalSnoc(INIT, steps, Replies(o, m.id, answer));
  }

  /** After the request `b` begins to spy, in a spare place of the array, and then `a` leaves. */
  function LateMove(o: Client, r: Client, a: Client, b: Client, s: Service,
          none: array<Client>, room: array<Client>, more: array<Client>, m: Message): seq<Step> {
    CopiedRequest(o, r, a, b, s, none, room, 1, m) + [SpiesOn(b, s, more, 0)] + [Departs(a, [], [])]
  }

  lemma MovedLate(o: Client, r: Client, a: Client, b: Client, s: Service,
          none: array<Client>, room: array<Client>, more: array<Client>, m: Message)
    requires Different(o, r, a, b) && s.client == o && m.Request? && m.name == s.name && m.ident == s.ident
    requires none != room && room != more && more != none
    ensures var steps := LateMove(o, r, a, b, s, none, room, more, m);
            Orderly(INIT, steps) && Astray(Exec(INIT, steps), o, r, b, s, room, [b, b], m.id)
  {
    var before := CopiedRequest(o, r, a, b, s, none, room, 1, m);
    RequestCopied(o, r, a, b, s, none, room, 1, m);
    assert seq(2, _ => a) == [a, a];
    LateSpies(Exec(INIT, before), o, r, a, b, s, none, room, more);
    Snoc(before, SpiesOn(b, s, more, 0));
    var two := before + [SpiesOn(b, s, more, 0)];
    FirstSpyRemoved(Exec(INIT, two).book, s, room, a, b);
    EarlyLeaves(Exec(INIT, two), o, r, a, b, s, room, [b, b], 1);
    Snoc(two, Departs(a, [], []));
  }

  /**
   * The other way for it to go astray: `b` begins to spy after the request, in a
   * place to spare, and when `a` leaves `b` is moved to the place that the
   * request's snapshot reads.
   */
  lemma LateSpyGetsReply(o: Client, r: Client, a: Client, b: Client, s: Service,
          none: array<Client>, room: array<Client>, more: array<Client>, m: Message, answer: Answer)
    requires Different(o, r, a, b) && s.client == o && m.Request? && m.name == s.name && m.ident == s.ident
    requires none != room && room != more && more != none
    ensures var steps := LateMove(o, r, a, b, s, none, room, more, m);
            && Legal(INIT, steps) && Written(Exec(INIT, steps), b) == []
            && Legal(INIT, steps + [Replies(o, m.id, answer)])
            && Written(Exec(INIT, steps + [Replies(o, m.id, answer)]), b) == [Reply(m.id, answer)]
  {
    var steps := LateMove(o, r, a, b, s, none, room, more, m);
    MovedLate(o, r, a, b, s, none, room, more, m);
    ReplyGoesAstray(Exec(INIT, steps), o, r, b, s, room, [b, b], m.id, answer);
    Runs.LegalSnoc(INIT, steps, Replies(o, m.id, answer));
  }

  // --------------------------------------------------------- a doubled reply

  lemma {:induction false} PossibleSnoc(w: C.World, run: seq<C.Action>, a: C.Action)
    requires C.Possible(w, run) && C.Can(C.After(w, run), a)
    ensures C.Possible(w, run + [a]) && C.After(w, run + [a]) == C.Do(C.After(w, run), a)
    decreases |run|
  {
    if run == [] {
      assert run + [a] == [a] && [a][1..] == [];
    } else {
      PossibleSnoc(C.Do(w, run[0]), run[1..], a);
      assert (run + [a])[1..] == run[1..] + [a];
    }
  }

  lemma {:induction false} DoublesSnoc(w: C.World, run: seq<C.Action>, a: C.Action)
    requires C.Possible(w, run) && C.Possible(w, run + [a]) && C.Can(C.After(w, run), a) && C.Doubles(C.After(w, run), a)
    ensures !C.NeverDoubles(w, run + [a])
    decreases |run|
  {
    if run == [] {
      assert run + [a] == [a];
    } else {
      assert (run + [a])[1..] == run[1..] + [a];
      DoublesSnoc(C.Do(w, run[0]), run[1..], a);
    }
  }

  /** `c` sends a message registering `s`, and spies on it. */
  function SpyOnOneself(c: Client, s: Service, none: array<Client>, room: array<Client>): seq<C.Action> {
    OwnRegister(c, s, none) + [C.Broker(SpiesOn(c, s, room, 0))]
  }

  function OwnRegister(c: Client, s: Service, none: array<Client>): seq<C.Action> {
    [C.Broker(Connects(c))] + [C.Inject(c, Register(s.name, s.ident))] + [C.Take(c, Registers(s, none))]
  }

  /** The client asks and answers itself, and is its own spy. */
  ghost predicate Alone(st: State, c: Client, s: Service, room: array<Client>) {
    && Connected(st, c) && c in st.names && c in st.net.conn && s.client == c && Registered(st, s)
    && st.net.closed == {} && !st.crashed && SpiedBy(st.book, s, room, [c], 1)
  }

  lemma OwnArrival(c: Client)
    ensures var run := [C.Broker(Connects(c))];
            && C.Possible(C.GENESIS, run)
            && var w := C.After(C.GENESIS, run);
               && w == C.World(Connect(INIT, c), map[], map[], map[])
               && Blank(w.st, {c}) && Idle(w.st, c) && w.st.clients == map[c.id := c]
  {
    Arrives(INIT, {}, c);
    PossibleSnoc(C.GENESIS, [], C.Broker(Connects(c)));
    assert [] + [C.Broker(Connects(c))] == [C.Broker(Connects(c))];
  }

  lemma OwnService(c: Client, s: Service, none: array<Client>)
    requires s.client == c
    ensures var run := OwnRegister(c, s, none);
            && C.Possible(C.GENESIS, run)
            && var w := C.After(C.GENESIS, run);
               && Serving(w.st, {c}, s, none) && Connected(w.st, c) && c in w.st.net.conn
               && C.Up(w, c) == [] && w.flight == map[]
  {
    var run := [C.Broker(Connects(c))];
    OwnArrival(c);
    var m := Register(s.name, s.ident);
    PossibleSnoc(C.GENESIS, run, C.Inject(c, m));
    var st := Connect(INIT, c);
    ServiceArrives(st, {c}, s, none);
    Memory.AnnounceKeys(st, s);
    assert [m][1..] == [];
    PossibleSnoc(C.GENESIS, run + [C.Inject(c, m)], C.Take(c, Registers(s, none)));
  }

  lemma OwnSpy(st: State, c: Client, s: Service, none: array<Client>, room: array<Client>)
    requires Serving(st, {c}, s, none) && Connected(st, c) && c in st.net.conn && s.client == c && none != room
    ensures Enabled(st, SpiesOn(c, s, room, 0))
    ensures var st' := Apply(st, SpiesOn(c, s, room, 0));
            Alone(st', c, s, room) && st'.table == R.EMPTY_TABLE
  {
    assert [] + seq(1, _ => c) == [c];
  }

  lemma SpiedOnOneself(c: Client, s: Service, none: array<Client>, room: array<Client>)
    requires s.client == c && none != room
    ensures var run := SpyOnOneself(c, s, none, room);
            && C.Possible(C.GENESIS, run)
            && var w := C.After(C.GENESIS, run);
               Alone(w.st, c, s, room) && w.st.table == R.EMPTY_TABLE && C.Up(w, c) == [] && w.flight == map[]
  {
    var run := OwnRegister(c, s, none);
    OwnService(c, s, none);
    OwnSpy(C.After(C.GENESIS, run).st, c, s, none, room);
    PossibleSnoc(C.GENESIS, run, C.Broker(SpiesOn(c, s, room, 0)));
  }

  lemma OwnRequest(w: C.World, c: Client, s: Service, room: array<Client>, m: Message)
    requires Alone(w.st, c, s, room) && C.Up(w, c) == [] && w.flight == map[] && m.Request?
    ensures C.Can(w, C.Install(c, m))
    ensures var w1 := C.Do(w, C.Install(c, m));
            && C.Can(w1, C.Write(c, m.id))
            && var w2 := C.Do(w1, C.Write(c, m.id)); w2.st == w.st && C.Up(w2, c) == [m]
  {
  }

  lemma OwnRequestTaken(st: State, c: Client, s: Service, room: array<Client>, m: Message)
    requires Alone(st, c, s, room) && st.table == R.EMPTY_TABLE
    requires m.Request? && m.name == s.name && m.ident == s.ident
    ensures Enabled(st, Requests(c, m))
    ensures var st' := Apply(st, Requests(c, m));
            Alone(st', c, s, room) && m.id in st'.table.pending && st'.table.pending[m.id] == R.Entry(c, 0, Slice(room, 1))
  {
    assert Target(st, m) == Some(s);
    Memory.RequestNetKeys(st, c, m);
  }

  /** Then it installs a channel, writes a request to the service, and the broker takes it. */
  function AskOneself(c: Client, s: Service, none: array<Client>, room: array<Client>, m: Message): seq<C.Action>
    requires m.Request?
  {
    SpyOnOneself(c, s, none, room) + [C.Install(c, m)] + [C.Write(c, m.id)] + [C.Take(c, Requests(c, m))]
  }

  lemma AskedOneself(c: Client, s: Service, none: array<Client>, room: array<Client>, m: Message)
    requires s.client == c && none != room && m.Request? && m.name == s.name && m.ident == s.ident
    ensures var run := AskOneself(c, s, none, room, m);
            && C.Possible(C.GENESIS, run)
            && var w := C.After(C.GENESIS, run);
               && Alone(w.st, c, s, room) && C.Up(w, c) == []
               && m.id in w.st.table.pending && w.st.table.pending[m.id] == R.Entry(c, 0, Slice(room, 1))
  {
    var run := SpyOnOneself(c, s, none, room);
    SpiedOnOneself(c, s, none, room);
    var w := C.After(C.GENESIS, run);
    OwnRequest(w, c, s, room, m);
    PossibleSnoc(C.GENESIS, run, C.Install(c, m));
    PossibleSnoc(C.GENESIS, run + [C.Install(c, m)], C.Write(c, m.id));
    OwnRequestTaken(w.st, c, s, room, m);
    assert [m][1..] == [];
    PossibleSnoc(C.GENESIS, run + [C.Install(c, m)] + [C.Write(c, m.id)], C.Take(c, Requests(c, m)));
  }

  /** The broker passes the reply on to the requester twice. */
  lemma OwnReply(w: C.World, c: Client, s: Service, room: array<Client>, id: RequestId, answer: Answer)
    requires Alone(w.st, c, s, room) && C.Up(w, c) == []
    requires id in w.st.table.pending && w.st.table.pending[id] == R.Entry(c, 0, Slice(room, 1))
    ensures C.Can(w, C.Inject(c, Reply(id, answer)))
    ensures var w1 := C.Do(w, C.Inject(c, Reply(id, answer)));
            var a := C.Take(c, Replies(c, id, answer));
            C.Can(w1, a) && C.Doubles(w1, a)
  {
    var w1 := C.Do(w, C.Inject(c, Reply(id, answer)));
    assert C.Up(w1, c) == [Reply(id, answer)];
    assert Contents(w1.st.book, Slice(room, 1)) == [c];
    assert C.Overhears(w1.st, Replies(c, id, answer), c, id);
  }

  /**
   * A run with a doubled reply: a client that spies on a service it asks. It is
   * written the reply twice, and its receiving loop would block on the second.
   */
  lemma RequesterHearsTwice(c: Client, s: Service, none: array<Client>, room: array<Client>, m: Message, answer: Answer)
    requires s.client == c && none != room && m.Request? && m.name == s.name && m.ident == s.ident
    ensures var run := AskOneself(c, s, none, room, m) + [C.Inject(c, Reply(m.id, answer))]
                       + [C.Take(c, Replies(c, m.id, answer))];
            && C.Possible(C.GENESIS, run) && !C.NeverDoubles(C.GENESIS, run)
            && !C.AllAnsweredOnce(C.After(C.GENESIS, run))
  {
    var run := AskOneself(c, s, none, room, m);
    AskedOneself(c, s, none, room, m);
    OwnReply(C.After(C.GENESIS, run), c, s, room, m.id, answer);
    PossibleSnoc(C.GENESIS, run, C.Inject(c, Reply(m.id, answer)));
    var run1 := run + [C.Inject(c, Reply(m.id, answer))];
    PossibleSnoc(C.GENESIS, run1, C.Take(c, Replies(c, m.id, answer)));
    DoublesSnoc(C.GENESIS, run1, C.Take(c, Replies(c, m.id, answer)));
    C.OnceIffNeverDoubles(run1 + [C.Take(c, Replies(c, m.id, answer))]);
  }
}
