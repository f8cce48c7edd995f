/**
 * A rule that clients can keep, and that keeps every reply single: who asks a
 * service does not spy on it. Not immediate, because snapshots share arrays with
 * live slices: a client that comes to spy later can end up in the snapshot of a
 * request sent before.
 */
module Roles {
  import opened Objects
  import opened BrokerState
  import opened Composition
  import R = Requests
  import Memory
  import Runs
  import Spies

  type Pairs = set<(Client, Service)>

  /** A step of the rule: whoever spies may, and whoever asks a service does not spy on it. */
  ghost predicate Respects(st: State, step: Step, spies: Pairs) {
    match step
    case SpiesOn(c, s, _, _) => (c, s) in spies
    case Requests(c, m) => m.Request? && Target(st, m).Some? ==> (c, Target(st, m).value) !in spies
    case _ => true
  }

  ghost predicate RunRespects(w: World, run: seq<Action>, spies: Pairs)
    requires Possible(w, run)
    decreases |run|
  {
    run == [] || ((Moves(run[0]) ==> Respects(w.st, run[0].step, spies)) && RunRespects(Do(w, run[0]), run[1..], spies))
  }

  /** Every array holds only clients that may spy on the service it was made for. */
  ghost predicate StoreRespects(b: SpyBook, spies: Pairs) {
    forall a, c :: a in b.store && a in b.lineage && c in b.store[a] ==> (c, b.lineage[a]) in spies
  }

  /** The sender of a pending request may not spy on the service whose spies were copied. */
  ghost predicate EntryRespects(b: SpyBook, e: R.Entry, spies: Pairs) {
    e.spies.arr in b.lineage && (e.sender, b.lineage[e.spies.arr]) !in spies
  }

  ghost predicate TableRespects(b: SpyBook, t: R.Table, spies: Pairs) {
    forall id :: id in t.pending ==> EntryRespects(b, t.pending[id], spies)
  }

  ghost predicate Apart(st: State, spies: Pairs) {
    StoreRespects(st.book, spies) && TableRespects(st.book, st.table, spies)
  }

  lemma AddSpyRespects(b: SpyBook, c: Client, s: Service, room: array<Client>, spare: nat, spies: Pairs)
    requires Spies.BookOk(b) && s in b.spies && room !in b.store && StoreRespects(b, spies) && (c, s) in spies
    ensures StoreRespects(AddSpy(b, c, s, room, spare), spies)
  {
    var b' := AddSpy(b, c, s, room, spare);
    var Slice(arr, len) := b.spies[s];
    forall a, x | a in b'.store && a in b'.lineage && x in b'.store[a]
      ensures (x, b'.lineage[a]) in spies
    {
      assert x == c || (a in b.store && x in b.store[a]) || x in b.store[arr];
    }
  }

  lemma RemoveSpyRespects(b: SpyBook, c: Client, s: Service, spies: Pairs)
    requires Spies.BookOk(b) && s in b.spies && StoreRespects(b, spies)
    ensures StoreRespects(RemoveSpy(b, s, c), spies)
  {
    var b' := RemoveSpy(b, s, c);
    forall a, x | a in b'.store && a in b'.lineage && x in b'.store[a]
      ensures (x, b'.lineage[a]) in spies
    {
      assert x in b.store[a];
    }
  }

  lemma {:induction false} RemoveSpiesRespects(b: SpyBook, c: Client, list: seq<Service>, spies: Pairs)
    requires Spies.BookOk(b) && (forall s :: s in list ==> s in b.spies) && StoreRespects(b, spies)
    ensures StoreRespects(RemoveSpies(b, list, c), spies) && RemoveSpies(b, list, c).lineage == b.lineage
    decreases |list|
  {
    if list != [] {
      RemoveSpyRespects(b, c, list[0], spies);
      Spies.DropSpy(b, list[0], c);
      RemoveSpiesRespects(RemoveSpy(b, list[0], c), c, list[1..], spies);
    }
  }

  /** Arrays keep the service they were made for. */
  ghost predicate LineageGrows(b: SpyBook, b': SpyBook) {
    forall a :: a in b.lineage ==> a in b'.lineage && b'.lineage[a] == b.lineage[a]
  }

  lemma BookRespects(st: State, step: Step, spies: Pairs)
    requires Spies.Inv(st) && Memory.ServicesKnown(st.services, st.book) && Enabled(st, step)
    requires StoreRespects(st.book, spies) && Respects(st, step, spies)
    ensures StoreRespects(Apply(st, step).book, spies) && LineageGrows(st.book, Apply(st, step).book)
  {
    Runs.BookStep(st, step);
    match step
    case SpiesOn(c, s, room, spare) =>
      assert s == st.services[s.name][s.ident];
      AddSpyRespects(st.book, c, s, room, spare, spies);
    case Departs(c, _, _) =>
      Runs.SpiedOnAreKnown(st, c);
      RemoveSpiesRespects(st.book, c, Spying(st, c), spies);
    case _ =>
  }

  /** What is pending after a step was so before, or is the request just accepted. */
  lemma PendingFrom(st: State, step: Step, id: RequestId)
    requires Enabled(st, step) && id in Apply(st, step).table.pending
    ensures (id in st.table.pending && Apply(st, step).table.pending[id] == st.table.pending[id])
            || (step.Requests? && Target(st, step.m).Some?
                && Apply(st, step).table.pending[id] == R.Entry(step.c, st.table.next, st.book.spies[Target(st, step.m).value]))
  {
    Runs.TableStep(st, step);
  }

  lemma StepRespects(st: State, step: Step, spies: Pairs)
    requires Spies.Inv(st) && Memory.ServicesKnown(st.services, st.book) && Enabled(st, step)
    requires Apart(st, spies) && Respects(st, step, spies)
    ensures Apart(Apply(st, step), spies)
  {
    var st' := Apply(st, step);
    BookRespects(st, step, spies);
    forall id | id in st'.table.pending
      ensures EntryRespects(st'.book, st'.table.pending[id], spies)
    {
      PendingFrom(st, step, id);
      assert id in st.table.pending ==> EntryRespects(st.book, st.table.pending[id], spies);
    }
  }

  lemma SenderNotCopied(b: SpyBook, e: R.Entry, spies: Pairs)
    requires StoreRespects(b, spies) && EntryRespects(b, e, spies)
    ensures e.sender !in Contents(b, e.spies)
  {
    if Backed(b, e.spies) {
      assert e.sender !in b.store[e.spies.arr];
    }
  }

  lemma NoneOverhear(st: State, step: Step, spies: Pairs, c: Client, id: RequestId)
    requires Apart(st, spies)
    ensures !Overhears(st, step, c, id)
  {
    if id in st.table.pending {
      SenderNotCopied(st.book, st.table.pending[id], spies);
    }
  }

  lemma ActionRespects(w: World, a: Action, spies: Pairs)
    requires Runs.Inv(w.st) && Apart(w.st, spies) && Can(w, a) && (Moves(a) ==> Respects(w.st, a.step, spies))
    ensures !Doubles(w, a) && Runs.Inv(Do(w, a).st) && Apart(Do(w, a).st, spies)
  {
    if Moves(a) {
      forall c, id
        ensures !Overhears(w.st, a.step, c, id)
      {
        NoneOverhear(w.st, a.step, spies, c, id);
      }
      StepRespects(w.st, a.step, spies);
      Runs.StepKeeps(w.st, a.step);
    }
  }

  lemma {:induction false} RunNeverDoubles(w: World, run: seq<Action>, spies: Pairs)
    requires Runs.Inv(w.st) && Apart(w.st, spies) && Possible(w, run) && RunRespects(w, run, spies)
    ensures NeverDoubles(w, run)
    decreases |run|
  {
    if run != [] {
      ActionRespects(w, run[0], spies);
      RunNeverDoubles(Do(w, run[0]), run[1..], spies);
    }
  }

  /**
   * If no client asks a service that it spies on, at any time of the run before
   * or after, no reply is doubled: every request is answered at most once.
   */
  lemma AbstainersHearOnce(run: seq<Action>, spies: Pairs)
    requires Possible(GENESIS, run) && RunRespects(GENESIS, run, spies)
    ensures NeverDoubles(GENESIS, run) && AllAnsweredOnce(After(GENESIS, run))
  {
    Runs.InitInv();
    RunNeverDoubles(GENESIS, run, spies);
    OnceIffNeverDoubles(run);
  }
}
