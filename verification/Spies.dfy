/** Spies: the two-way relation kept by the slices, and snapshots that share their arrays. */
module Spies {
  import opened Seqs
  import opened Objects
  import opened BrokerState

  /** Every service's slice lies in an array made for that service. */
  ghost predicate BookOk(b: SpyBook) {
    && b.store.Keys == b.lineage.Keys
    && (forall s :: s in b.spies ==> Backed(b, b.spies[s]) && b.lineage[b.spies[s].arr] == s)
    && (forall a :: a in b.lineage ==> b.lineage[a] in b.spies)
  }

  // ------------------------------------------- appending and removing one spy

  lemma AppendSpy(b: SpyBook, c: Client, s: Service, room: array<Client>, spare: nat)
    requires BookOk(b) && s in b.spies && room !in b.store
    ensures var b' := AddSpy(b, c, s, room, spare);
            && BookOk(b') && b'.spies.Keys == b.spies.Keys
            && SpiesOf(b', s) == SpiesOf(b, s) + [c]
            && forall d :: d in b.spies && d != s ==> SpiesOf(b', d) == SpiesOf(b, d)
  {
    var b' := AddSpy(b, c, s, room, spare);
    var Slice(arr, len) := b.spies[s];
    if len < |b.store[arr]| {
      assert b'.store[arr][..len + 1] == b.store[arr][..len] + [c];
    } else {
      assert b'.store[room][..len + 1] == b.store[arr][..len] + [c];
    }
  }

  lemma DropSpyElsewhere(b: SpyBook, s: Service, c: Client, d: Service)
    requires BookOk(b) && s in b.spies && d in b.spies && d != s
    ensures SpiesOf(RemoveSpy(b, s, c), d) == SpiesOf(b, d)
  {
  }

  lemma DropSpyContents(b: SpyBook, s: Service, c: Client, i: nat)
    requires BookOk(b) && s in b.spies && i == IndexOf(SpiesOf(b, s), c) < |SpiesOf(b, s)|
    ensures var b' := RemoveSpy(b, s, c);
            && BookOk(b') && b'.spies.Keys == b.spies.Keys && b'.lineage == b.lineage
            && SpiesOf(b', s) == SwapRemove(SpiesOf(b, s), i)
            && forall d :: d in b.spies && d != s ==> SpiesOf(b', d) == SpiesOf(b, d)
  {
    var Slice(arr, len) := b.spies[s];
    var b' := RemoveSpy(b, s, c);
    assert b'.store[arr] == b.store[arr][i := b.store[arr][len - 1]];
    assert b'.store[arr][..len - 1] == SwapRemove(b.store[arr][..len], i);
    forall d | d in b.spies && d != s
      ensures SpiesOf(b', d) == SpiesOf(b, d)
    {
      DropSpyElsewhere(b, s, c, d);
    }
  }

  lemma DropSpy(b: SpyBook, s: Service, c: Client)
    requires BookOk(b) && s in b.spies
    ensures var b' := RemoveSpy(b, s, c);
            && BookOk(b') && b'.spies.Keys == b.spies.Keys && b'.lineage == b.lineage
            && multiset(SpiesOf(b', s)) == multiset(SpiesOf(b, s)) - multiset{c}
            && forall d :: d in b.spies && d != s ==> SpiesOf(b', d) == SpiesOf(b, d)
  {
    var list := SpiesOf(b, s);
    var i := IndexOf(list, c);
    if i < |list| {
      DropSpyContents(b, s, c, i);
      SwapRemoveMultiset(list, i);
    } else {
      assert c !in list;
    }
  }

  /** How often `d` remains among spies in which it occurred `n` times. */
  function Remaining(n: nat, list: seq<Service>, s: Service): nat {
    if n <= multiset(list)[s] then 0 else n - multiset(list)[s]
  }

  lemma DropSpyCount(b: SpyBook, first: Service, s: Service, c: Client)
    requires BookOk(b) && first in b.spies && s in b.spies
    ensures var n, n' := multiset(SpiesOf(b, s))[c], multiset(SpiesOf(RemoveSpy(b, first, c), s))[c];
            n' == if s == first && n > 0 then n - 1 else n
    ensures forall d :: d != c ==> multiset(SpiesOf(RemoveSpy(b, first, c), s))[d] == multiset(SpiesOf(b, s))[d]
  {
    DropSpy(b, first, c);
  }

  lemma {:induction false} DropSpiesOthers(b: SpyBook, list: seq<Service>, c: Client, s: Service, d: Client)
    requires BookOk(b) && s in b.spies && (forall x :: x in list ==> x in b.spies) && d != c
    ensures multiset(SpiesOf(RemoveSpies(b, list, c), s))[d] == multiset(SpiesOf(b, s))[d]
    decreases |list|
  {
    if list != [] {
      DropSpy(b, list[0], c);
      DropSpyCount(b, list[0], s, c);
      DropSpiesOthers(RemoveSpy(b, list[0], c), list[1..], c, s, d);
    }
  }

  lemma RemainingRest(n: nat, list: seq<Service>, s: Service)
    requires list != []
    ensures Remaining(n, list, s) == Remaining(if s == list[0] && n > 0 then n - 1 else n, list[1..], s)
  {
    MultisetHead(list);
  }

  lemma {:induction false} DropSpiesOwn(b: SpyBook, list: seq<Service>, c: Client, s: Service)
    requires BookOk(b) && s in b.spies && forall x :: x in list ==> x in b.spies
    ensures multiset(SpiesOf(RemoveSpies(b, list, c), s))[c] == Remaining(multiset(SpiesOf(b, s))[c], list, s)
    decreases |list|
  {
    if list != [] {
      DropSpy(b, list[0], c);
      DropSpyCount(b, list[0], s, c);
      DropSpiesOwn(RemoveSpy(b, list[0], c), list[1..], c, s);
      RemainingRest(multiset(SpiesOf(b, s))[c], list, s);
    }
  }

  /**
   * One occurrence goes per entry of the departing client's list, so a service
   * it lists n times loses it n times; no other client loses an occurrence.
   */
  lemma DropSpiesCount(b: SpyBook, list: seq<Service>, c: Client, s: Service)
    requires BookOk(b) && s in b.spies && forall d :: d in list ==> d in b.spies
    ensures var b' := RemoveSpies(b, list, c);
            && multiset(SpiesOf(b', s))[c] == Remaining(multiset(SpiesOf(b, s))[c], list, s)
            && forall d :: d != c ==> multiset(SpiesOf(b', s))[d] == multiset(SpiesOf(b, s))[d]
  {
    DropSpiesOwn(b, list, c, s);
    forall d | d != c
      ensures multiset(SpiesOf(RemoveSpies(b, list, c), s))[d] == multiset(SpiesOf(b, s))[d]
    {
      DropSpiesOthers(b, list, c, s, d);
    }
  }

  lemma {:induction false} DropSpies(b: SpyBook, list: seq<Service>, c: Client)
    requires BookOk(b) && forall s :: s in list ==> s in b.spies
    ensures var b' := RemoveSpies(b, list, c);
            BookOk(b') && b'.spies.Keys == b.spies.Keys && b'.lineage == b.lineage
    decreases |list|
  {
    if list != [] {
      DropSpy(b, list[0], c);
      DropSpies(RemoveSpy(b, list[0], c), list[1..], c);
    }
  }

  // ------------------------------------------------------------- the relation

  /** `c` occurs among the spies of `s` as often as `s` occurs in what `c` spies on. */
  ghost predicate Symmetric(clients: map<string, Client>, spying: Lists, b: SpyBook, s: Service, c: Client) {
    multiset(SpiesOf(b, s))[c] == if Present(clients, c) then multiset(Listed(spying, c))[s] else 0
  }

  ghost predicate SpyingKnown(clients: map<string, Client>, spying: Lists, b: SpyBook) {
    forall id :: id in clients ==> forall s :: s in Listed(spying, clients[id]) ==> s in b.spies
  }

  ghost predicate StoreKnown(b: SpyBook, known: set<Client>) {
    forall a :: a in b.store ==> forall c :: c in b.store[a] ==> c in known
  }

  ghost predicate AllSymmetric(clients: map<string, Client>, known: set<Client>, spying: Lists, b: SpyBook) {
    forall s, c :: s in b.spies && c in known ==> Symmetric(clients, spying, b, s, c)
  }

  ghost predicate Related(clients: map<string, Client>, known: set<Client>, spying: Lists, b: SpyBook) {
    && BookOk(b)
    && (forall id :: id in clients ==> clients[id].id == id && clients[id] in known)
    && SpyingKnown(clients, spying, b)
    && StoreKnown(b, known)
    && AllSymmetric(clients, known, spying, b)
  }

  /** The relation holds among connected clients; a client that has left is no one's spy. */
  ghost predicate Inv(st: State) {
    Related(st.clients, st.names.Keys, st.spying, st.book)
  }

  lemma ConnectKeeps(clients: map<string, Client>, known: set<Client>, spying: Lists, b: SpyBook, c: Client)
    requires Related(clients, known, spying, b) && c !in known && c.id !in clients
    ensures Related(clients[c.id := c], known + {c}, spying[c := []], b)
  {
    forall s, d | s in b.spies && d in known + {c}
      ensures Symmetric(clients[c.id := c], spying[c := []], b, s, d)
    {
      if d == c {
        assert c !in SpiesOf(b, s);
      } else {
        assert Symmetric(clients, spying, b, s, d);
      }
    }
  }

  lemma EnrolKeeps(clients: map<string, Client>, known: set<Client>, spying: Lists, b: SpyBook, s: Service,
          none: array<Client>)
    requires Related(clients, known, spying, b) && s !in b.spies && none !in b.store
    ensures Related(clients, known, spying, Enrol(b, s, none))
  {
    var b' := Enrol(b, s, none);
    forall d, c | d in b'.spies && c in known
      ensures Symmetric(clients, spying, b', d, c)
    {
      if d == s {
        assert SpiesOf(b', s) == [];
        assert Present(clients, c) ==> s !in Listed(spying, clients[c.id]);
      } else {
        assert Symmetric(clients, spying, b, d, c);
        assert SpiesOf(b', d) == SpiesOf(b, d);
      }
    }
  }

  lemma AddSpySymmetric(clients: map<string, Client>, spying: Lists, b: SpyBook,
                        c: Client, s: Service, room: array<Client>, spare: nat, d: Service, x: Client)
    requires BookOk(b) && Present(clients, c) && s in b.spies && room !in b.store && d in b.spies
    requires Symmetric(clients, spying, b, d, x)
    ensures Symmetric(clients, spying[c := Listed(spying, c) + [s]], AddSpy(b, c, s, room, spare), d, x)
  {
    AppendSpy(b, c, s, room, spare);
    assert multiset(SpiesOf(b, s) + [c]) == multiset(SpiesOf(b, s)) + multiset{c};
    assert multiset(Listed(spying, c) + [s]) == multiset(Listed(spying, c)) + multiset{s};
  }

  lemma AddSpyStore(b: SpyBook, known: set<Client>, c: Client, s: Service, room: array<Client>, spare: nat)
    requires BookOk(b) && StoreKnown(b, known) && c in known && s in b.spies && room !in b.store
    ensures StoreKnown(AddSpy(b, c, s, room, spare), known)
  {
  }

  lemma AddSpySpying(clients: map<string, Client>, spying: Lists, b: SpyBook, b': SpyBook, c: Client, s: Service)
    requires SpyingKnown(clients, spying, b) && s in b.spies && b'.spies.Keys == b.spies.Keys && Present(clients, c)
    ensures SpyingKnown(clients, spying[c := Listed(spying, c) + [s]], b')
  {
    var spying' := spying[c := Listed(spying, c) + [s]];
    forall id, d | id in clients && d in Listed(spying', clients[id])
      ensures d in b'.spies
    {
      assert d == s || d in Listed(spying, clients[id]);
    }
  }

  lemma AddSpySymmetries(clients: map<string, Client>, known: set<Client>, spying: Lists, b: SpyBook,
                         c: Client, s: Service, room: array<Client>, spare: nat)
    requires BookOk(b) && Present(clients, c) && s in b.spies && room !in b.store && AllSymmetric(clients, known, spying, b)
    ensures AllSymmetric(clients, known, spying[c := Listed(spying, c) + [s]], AddSpy(b, c, s, room, spare))
  {
    AppendSpy(b, c, s, room, spare);
    forall d, x | d in b.spies && x in known
      ensures Symmetric(clients, spying[c := Listed(spying, c) + [s]], AddSpy(b, c, s, room, spare), d, x)
    {
      AddSpySymmetric(clients, spying, b, c, s, room, spare, d, x);
    }
  }

  lemma AddSpyKeeps(clients: map<string, Client>, known: set<Client>, spying: Lists, b: SpyBook,
                    c: Client, s: Service, room: array<Client>, spare: nat)
    requires Related(clients, known, spying, b) && Present(clients, c) && s in b.spies && room !in b.store
    ensures Related(clients, known, spying[c := Listed(spying, c) + [s]], AddSpy(b, c, s, room, spare))
  {
    AppendSpy(b, c, s, room, spare);
    AddSpySymmetries(clients, known, spying, b, c, s, room, spare);
    AddSpyStore(b, known, c, s, room, spare);
    AddSpySpying(clients, spying, b, AddSpy(b, c, s, room, spare), c, s);
  }

  lemma DroppedOneStore(b: SpyBook, s: Service, c: Client, known: set<Client>)
    requires BookOk(b) && s in b.spies && StoreKnown(b, known)
    ensures StoreKnown(RemoveSpy(b, s, c), known)
  {
  }

  lemma {:induction false} DroppedStore(b: SpyBook, list: seq<Service>, c: Client, known: set<Client>)
    requires BookOk(b) && StoreKnown(b, known) && forall s :: s in list ==> s in b.spies
    ensures StoreKnown(RemoveSpies(b, list, c), known)
    decreases |list|
  {
    if list != [] {
      DropSpy(b, list[0], c);
      DroppedOneStore(b, list[0], c, known);
      DroppedStore(RemoveSpy(b, list[0], c), list[1..], c, known);
    }
  }

  lemma RemoveSpiesKeeps(clients: map<string, Client>, known: set<Client>, spying: Lists, b: SpyBook, c: Client)
    requires Related(clients, known, spying, b) && Present(clients, c)
    ensures var b' := RemoveSpies(b, Listed(spying, c), c);
            && Related(clients - {c.id}, known, spying, b')
            && b'.spies.Keys == b.spies.Keys
            && forall s :: s in b.spies ==>
                 && c !in SpiesOf(b', s)
                 && forall d :: d != c ==> multiset(SpiesOf(b', s))[d] == multiset(SpiesOf(b, s))[d]
  {
    var list := Listed(spying, c);
    var b' := RemoveSpies(b, list, c);
    assert list == Listed(spying, clients[c.id]);
    DropSpies(b, list, c);
    DroppedStore(b, list, c, known);
    forall s, d | s in b'.spies && d in known
      ensures Symmetric(clients - {c.id}, spying, b', s, d)
    {
      assert Symmetric(clients, spying, b, s, d);
      DropSpiesCount(b, list, c, s);
    }
    forall s | s in b.spies
      ensures c !in SpiesOf(b', s)
      ensures forall d :: d != c ==> multiset(SpiesOf(b', s))[d] == multiset(SpiesOf(b, s))[d]
    {
      DropSpiesCount(b, list, c, s);
      assert Symmetric(clients, spying, b, s, c);
      assert multiset(SpiesOf(b', s))[c] == 0;
    }
  }

  /** A departing client is among the spies of no service, replaced ones included. */
  lemma DepartureRemovesEverySpy(st: State, c: Client, exactKeys: seq<string>, globKeys: seq<string>)
    requires Inv(st) && Connected(st, c)
    ensures var b' := Depart(st, c, exactKeys, globKeys).book;
            && b'.spies.Keys == st.book.spies.Keys
            && forall s :: s in st.book.spies ==>
                 && c !in SpiesOf(b', s)
                 && forall d :: d != c ==> multiset(SpiesOf(b', s))[d] == multiset(SpiesOf(st.book, s))[d]
  {
    RemoveSpiesKeeps(st.clients, st.names.Keys, st.spying, st.book, c);
  }

  // ---------------------------------------------------------------- snapshots

  /** Appending `c` to the spies of `s` does not change what the slice reads. */
  predicate AppendSpares(b: SpyBook, c: Client, s: Service, sl: Slice)
    requires s in b.spies && Backed(b, sl)
  {
    var live := b.spies[s];
    sl.arr != live.arr || sl.len <= live.len || b.store[sl.arr][live.len] == c
  }

  /**
   * A later spy changes what a snapshot reads exactly when the snapshot lies in
   * the live array and is longer than the live slice, as it is once a spy that it
   * has was removed; then the new spy takes the first place given up, unless that
   * very client was there.
   */
  lemma AppendSparesSnapshotExactly(b: SpyBook, c: Client, s: Service, room: array<Client>, spare: nat, sl: Slice)
    requires BookOk(b) && s in b.spies && room !in b.store && Backed(b, sl)
    ensures var b' := AddSpy(b, c, s, room, spare);
            Backed(b', sl) && (Contents(b', sl) == Contents(b, sl) <==> AppendSpares(b, c, s, sl))
  {
    var b' := AddSpy(b, c, s, room, spare);
    var Slice(arr, len) := b.spies[s];
    if sl.arr == arr && len < sl.len {
      assert Contents(b', sl)[len] == c;
      if b.store[arr][len] == c {
        assert b'.store[arr] == b.store[arr];
      } else {
        assert Contents(b, sl)[len] != c;
      }
    } else {
      assert b'.store[sl.arr][..sl.len] == b.store[sl.arr][..sl.len];
    }
  }

  /** Removing `c` from the spies of `s` does not change what the slice reads. */
  predicate RemovalSpares(b: SpyBook, c: Client, s: Service, sl: Slice)
    requires s in b.spies
  {
    var live := SpiesOf(b, s);
    sl.arr != b.spies[s].arr || c !in live || sl.len <= IndexOf(live, c) || live[|live| - 1] == c
  }

  /**
   * A removal changes what a snapshot reads exactly when the client is a spy, but
   * not the last one, and the snapshot lies in the live array and reaches the
   * client's place, which the last spy is moved to.
   */
  lemma RemovalSparesSnapshotExactly(b: SpyBook, c: Client, s: Service, sl: Slice)
    requires BookOk(b) && s in b.spies && Backed(b, sl)
    ensures var b' := RemoveSpy(b, s, c);
            Backed(b', sl) && (Contents(b', sl) == Contents(b, sl) <==> RemovalSpares(b, c, s, sl))
  {
    var live := SpiesOf(b, s);
    var i := IndexOf(live, c);
    var b' := RemoveSpy(b, s, c);
    var arr := b.spies[s].arr;
    if sl.arr == arr && c in live {
      assert b'.store[arr] == b.store[arr][i := live[|live| - 1]];
      assert b.store[arr][i] == c;
      if i < sl.len {
        assert Contents(b', sl)[i] == live[|live| - 1] && Contents(b, sl)[i] == c;
        if live[|live| - 1] == c {
          assert b'.store[arr] == b.store[arr];
        }
      } else {
        assert Contents(b', sl) == Contents(b, sl);
      }
    }
  }

  /** None of the removals that a departure makes, one per entry of the list, changes what the slice reads. */
  predicate RemovalsSpare(b: SpyBook, c: Client, list: seq<Service>, sl: Slice)
    decreases |list|
  {
    list == [] ||
    ((list[0] in b.spies ==> RemovalSpares(b, c, list[0], sl)) && RemovalsSpare(RemoveSpy(b, list[0], c), c, list[1..], sl))
  }

  lemma OtherStays(b: SpyBook, c: Client, s: Service, a: array<Client>, i: nat)
    requires BookOk(b) && s in b.spies && a in b.store && i < |b.store[a]| && b.store[a][i] != c
    ensures var b' := RemoveSpy(b, s, c);
            a in b'.store && |b'.store[a]| == |b.store[a]| && b'.store[a][i] == b.store[a][i]
  {
    if c in SpiesOf(b, s) {
      assert SpiesOf(b, s)[IndexOf(SpiesOf(b, s), c)] == c;
    }
  }

  /** The removals of a client write no place that holds another client. */
  lemma {:induction false} OthersStay(b: SpyBook, c: Client, list: seq<Service>, a: array<Client>, i: nat)
    requires BookOk(b) && (forall s :: s in list ==> s in b.spies)
    requires a in b.store && i < |b.store[a]| && b.store[a][i] != c
    ensures var b' := RemoveSpies(b, list, c);
            a in b'.store && |b'.store[a]| == |b.store[a]| && b'.store[a][i] == b.store[a][i]
    decreases |list|
  {
    if list != [] {
      var b1 := RemoveSpy(b, list[0], c);
      DropSpy(b, list[0], c);
      OtherStays(b, c, list[0], a, i);
      OthersStay(b1, c, list[1..], a, i);
    }
  }

  /** The place that a removal changes: it held the client and then holds another. */
  lemma PlaceChanged(b: SpyBook, c: Client, s: Service, sl: Slice) returns (i: nat)
    requires BookOk(b) && s in b.spies && Backed(b, sl) && !RemovalSpares(b, c, s, sl)
    ensures i < sl.len && b.store[sl.arr][i] == c
    ensures var b' := RemoveSpy(b, s, c);
            sl.arr in b'.store && |b'.store[sl.arr]| == |b.store[sl.arr]| && b'.store[sl.arr][i] != c
  {
    i := IndexOf(SpiesOf(b, s), c);
    assert SpiesOf(b, s)[i] == c;
  }

  /** It does not get the client back from the removals that follow. */
  lemma ChangeStays(b: SpyBook, c: Client, list: seq<Service>, sl: Slice)
    requires BookOk(b) && list != [] && (forall s :: s in list ==> s in b.spies) && Backed(b, sl)
    requires BookOk(RemoveSpy(b, list[0], c)) && forall s :: s in list[1..] ==> s in RemoveSpy(b, list[0], c).spies
    requires !RemovalSpares(b, c, list[0], sl)
    ensures Contents(RemoveSpies(b, list, c), sl) != Contents(b, sl)
  {
    var i := PlaceChanged(b, c, list[0], sl);
    OthersStay(RemoveSpy(b, list[0], c), c, list[1..], sl.arr, i);
    Differs(b, RemoveSpies(b, list, c), sl, i);
  }

  lemma Differs(b: SpyBook, b': SpyBook, sl: Slice, i: nat)
    requires Backed(b, sl) && Backed(b', sl) && i < sl.len && b.store[sl.arr][i] != b'.store[sl.arr][i]
    ensures Contents(b', sl) != Contents(b, sl)
  {
    assert Contents(b, sl)[i] != Contents(b', sl)[i];
  }

  lemma {:induction false} RemovalsSpareExactly(b: SpyBook, c: Client, list: seq<Service>, sl: Slice)
    requires BookOk(b) && (forall s :: s in list ==> s in b.spies) && Backed(b, sl)
    ensures var b' := RemoveSpies(b, list, c);
            Backed(b', sl) && (Contents(b', sl) == Contents(b, sl) <==> RemovalsSpare(b, c, list, sl))
    decreases |list|
  {
    if list != [] {
      RemovalSparesSnapshotExactly(b, c, list[0], sl);
      DropSpy(b, list[0], c);
      RemovalsSpareExactly(RemoveSpy(b, list[0], c), c, list[1..], sl);
      if !RemovalSpares(b, c, list[0], sl) {
        ChangeStays(b, c, list, sl);
      }
    }
  }

  // A case a client can tell without looking at arrays: no spy of the service leaves.

  /** A snapshot of the spies of `s`: within the live slice while both share an array. */
  ghost predicate Held(b: SpyBook, sl: Slice, s: Service) {
    && Backed(b, sl)
    && s in b.spies
    && sl.arr in b.lineage && b.lineage[sl.arr] == s
    && (b.spies[s].arr == sl.arr ==> sl.len <= b.spies[s].len)
  }

  lemma AppendSparesHeld(b: SpyBook, c: Client, d: Service, room: array<Client>, spare: nat, sl: Slice, s: Service)
    requires BookOk(b) && d in b.spies && room !in b.store && Held(b, sl, s)
    ensures AppendSpares(b, c, d, sl) && Held(AddSpy(b, c, d, room, spare), sl, s)
  {
  }

  lemma {:induction false} DropElsewhereSpares(b: SpyBook, c: Client, list: seq<Service>, sl: Slice, s: Service)
    requires BookOk(b) && Held(b, sl, s) && s !in list && forall d :: d in list ==> d in b.spies
    ensures RemovalsSpare(b, c, list, sl) && Held(RemoveSpies(b, list, c), sl, s)
    decreases |list|
  {
    if list != [] {
      DropSpy(b, list[0], c);
      DropElsewhereSpares(RemoveSpy(b, list[0], c), c, list[1..], sl, s);
    }
  }
}
