/** Requests, replies and carbon copies over whole runs of the broker. */
module Carbon {
  import opened Objects
  import opened BrokerState
  import opened Traffic
  import R = Requests
  import Spies
  import Memory
  import Runs

  // ------------------------------------------------- the table over a run

  /** The history of the request table that a run of the broker makes. */
  ghost function History(st: State, steps: seq<Step>): seq<R.Op>
    requires Legal(st, steps)
    decreases |steps|
  {
    if steps == [] then [] else TableOps(st, steps[0]) + History(Apply(st, steps[0]), steps[1..])
  }

  ghost function TableOps(st: State, step: Step): seq<R.Op> {
    match step
    case Requests(c, m) =>
      if m.Request? && Target(st, m).Some? then [R.Accept(m.id, c, st.book.spies[Target(st, m).value])] else []
    case Replies(_, id, _) => [R.Answered(id)]
    case Fires(k) => [R.Fired(k)]
    case _ => []
  }

  lemma TableOpsAre(st: State, step: Step)
    requires Enabled(st, step)
    ensures R.Legal(st.table, TableOps(st, step))
    ensures R.Exec(st.table, TableOps(st, step)) == Apply(st, step).table
  {
    Runs.TableStep(st, step);
    var ops := TableOps(st, step);
    if ops != [] {
      assert ops[1..] == [];
      assert R.Exec(st.table, ops) == R.Do(st.table, ops[0]);
    }
  }

  lemma {:induction false} ExecConcat(t: R.Table, ops: seq<R.Op>, more: seq<R.Op>)
    requires R.Legal(t, ops) && R.Legal(R.Exec(t, ops), more)
    ensures R.Legal(t, ops + more)
    ensures R.Exec(t, ops + more) == R.Exec(R.Exec(t, ops), more)
    decreases |ops|
  {
    if ops == [] {
      assert ops + more == more;
    } else {
      ExecConcat(R.Do(t, ops[0]), ops[1..], more);
      assert (ops + more)[1..] == ops[1..] + more;
    }
  }

  lemma {:induction false} RunIsHistory(st: State, steps: seq<Step>)
    requires Legal(st, steps)
    ensures R.Legal(st.table, History(st, steps))
    ensures R.Exec(st.table, History(st, steps)) == Exec(st, steps).table
    decreases |steps|
  {
    if steps != [] {
      TableOpsAre(st, steps[0]);
      RunIsHistory(Apply(st, steps[0]), steps[1..]);
      ExecConcat(st.table, TableOps(st, steps[0]), History(Apply(st, steps[0]), steps[1..]));
    }
  }

  // ----------------------------------------------------------------- draining

  /** The timers of `order` fire one after the other. */
  function Firings(order: seq<R.Timer>): seq<Step> {
    seq(|order|, i requires 0 <= i < |order| => Fires(order[i]))
  }

  lemma FiringsTail(order: seq<R.Timer>)
    requires order != []
    ensures Firings(order)[0] == Fires(order[0]) && Firings(order)[1..] == Firings(order[1..])
    ensures R.Firings(order)[0] == R.Fired(order[0]) && R.Firings(order)[1..] == R.Firings(order[1..])
  {
  }

  lemma FiringIsLegal(st: State, order: seq<R.Timer>)
    requires order != [] && Enabled(st, Fires(order[0])) && Legal(Apply(st, Fires(order[0])), Firings(order[1..]))
    requires R.Legal(R.Expire(st.table, order[0]), R.Firings(order[1..]))
    ensures Legal(st, Firings(order)) && R.Legal(st.table, R.Firings(order))
    ensures Exec(st, Firings(order)) == Exec(Apply(st, Fires(order[0])), Firings(order[1..]))
    ensures R.Exec(st.table, R.Firings(order)) == R.Exec(R.Expire(st.table, order[0]), R.Firings(order[1..]))
  {
    FiringsTail(order);
  }

  lemma {:induction false} FiringsAreLegal(st: State, order: seq<R.Timer>)
    requires R.Inv(st.table) && !st.crashed && R.Enumerates(order, st.table.armed.Keys)
    ensures Legal(st, Firings(order)) && R.Legal(st.table, R.Firings(order))
    ensures Exec(st, Firings(order)).table == R.Exec(st.table, R.Firings(order))
    decreases |order|
  {
    if order != [] {
      var st1 := Apply(st, Fires(order[0]));
      R.ExpireKeeps(st.table, order[0]);
      R.RestEnumerates(order, st.table.armed.Keys);
      FiringsAreLegal(st1, order[1..]);
      FiringIsLegal(st, order);
    }
  }

  /** The replies that draining owes a client under an id, on a connection still open. */
  function Owed(st: State, c: Client, id: RequestId): nat {
    if c !in st.net.closed && id in st.table.pending && st.table.pending[id].sender == c then 1 else 0
  }

  lemma FiringOwes(st: State, k: R.Timer, c: Client, id: RequestId)
    requires R.Inv(st.table) && st.table.overwritten == [] && Enabled(st, Fires(k)) && c in st.net.conn && c in st.names
    ensures var st1 := Apply(st, Fires(k));
            && st1.table.overwritten == [] && st1.net.closed == st.net.closed
            && c in st1.net.conn && c in st1.names
            && exists n: nat :: Wrote(st.net, st1.net, c, id, n) && n + Owed(st1, c, id) == Owed(st, c, id)
  {
    TimeoutAnswersIssuer(st, k);
    StepWrites(st, Fires(k), c, id);
    var n := Emitted(st, Fires(k), c, id);
    assert st.table.armed[k].client == st.table.pending[st.table.armed[k].id].sender;
    assert n + Owed(Apply(st, Fires(k)), c, id) == Owed(st, c, id);
  }

  lemma {:induction false} FiringsPay(st: State, order: seq<R.Timer>, c: Client, id: RequestId)
    requires R.Inv(st.table) && st.table.overwritten == [] && !st.crashed && c in st.net.conn && c in st.names
    requires R.Enumerates(order, st.table.armed.Keys) && Legal(st, Firings(order))
    ensures Wrote(st.net, Exec(st, Firings(order)).net, c, id, Owed(st, c, id))
    decreases |order|
  {
    if order == [] {
      assert R.Guarded(st.table) && st.table.armed.Keys == {};
    } else {
      var st1 := Apply(st, Fires(order[0]));
      FiringsTail(order);
      R.ExpireKeeps(st.table, order[0]);
      R.RestEnumerates(order, st.table.armed.Keys);
      FiringOwes(st, order[0], c, id);
      FiringsPay(st1, order[1..], c, id);
    }
  }

  /**
   * After any run of the broker that does not panic, letting its armed timers
   * fire in any order leaves no request pending, and every request it accepted answered exactly
   * once and to its issuer if and only if no id was reused while pending.
   */
  lemma BrokerDrains(steps: seq<Step>, order: seq<R.Timer>)
    requires Legal(INIT, steps) && Runs.Startups(steps) <= 1
    requires R.Enumerates(order, Exec(INIT, steps).table.armed.Keys)
    ensures Legal(Exec(INIT, steps), Firings(order)) && R.Legal(INIT.table, History(INIT, steps))
    ensures var t := Exec(Exec(INIT, steps), Firings(order)).table;
            t.pending == map[] && (R.AllAnswered(t) <==> R.NoReuse(INIT.table, History(INIT, steps)))
  {
    Runs.ReachableInv(steps);
    Runs.PanicsExactly(INIT, steps);
    RunIsHistory(INIT, steps);
    R.DrainingAnswersAll(History(INIT, steps), order);
    FiringsAreLegal(Exec(INIT, steps), order);
  }

  /**
   * What is written meanwhile: when no id was reused, each client is written one
   * reply for each of its requests that were pending, on a connection still
   * open, and no other reply.
   */
  lemma DrainingIsWritten(steps: seq<Step>, order: seq<R.Timer>, c: Client, id: RequestId)
    requires Legal(INIT, steps) && Runs.Startups(steps) <= 1
    requires R.Enumerates(order, Exec(INIT, steps).table.armed.Keys)
    requires R.Legal(INIT.table, History(INIT, steps)) && R.NoReuse(INIT.table, History(INIT, steps))
    requires c in Exec(INIT, steps).names
    ensures var st := Exec(INIT, steps);
            && Legal(st, Firings(order))
            && Wrote(st.net, Exec(st, Firings(order)).net, c, id, Owed(st, c, id))
  {
    Runs.ReachableInv(steps);
    Runs.PanicsExactly(INIT, steps);
    RunIsHistory(INIT, steps);
    R.HistoryKeepsInv(INIT.table, History(INIT, steps));
    var st := Exec(INIT, steps);
    FiringsAreLegal(st, order);
    FiringsPay(st, order, c, id);
  }

  // ------------------------------------------------------- carbon copies

  /**
   * When a timer fires and no id was reused while pending, the client that
   * issued the request is written the timeout, nobody else is written anything,
   * and the request is no longer pending.
   */
  lemma TimeoutAnswersIssuer(st: State, k: R.Timer)
    requires R.Inv(st.table) && st.table.overwritten == [] && k in st.table.armed
    ensures var id := st.table.armed[k].id;
            var st' := Fire(st, k);
            && id in st.table.pending && st.table.pending[id].timer == k && id !in st'.table.pending
            && forall d :: d in st.net.conn ==>
                 Written(st', d) == Written(st, d) +
                   if d == st.table.pending[id].sender && d !in st.net.closed then [Reply(id, Error(Timeout))] else []
  {
    assert R.Exact(st.table) && R.Guarded(st.table);
    var id := st.table.armed[k].id;
    assert st.table.armed[k] == R.Alarm(id, st.table.pending[id].sender);
  }

  /** The step does not change what the slice reads: a condition on the state before it. */
  ghost predicate StepSpares(st: State, step: Step, sl: Slice)
    requires Backed(st.book, sl)
  {
    match step
    case SpiesOn(c, s, _, _) => s in st.book.spies ==> Spies.AppendSpares(st.book, c, s, sl)
    case Departs(c, _, _) => Spies.RemovalsSpare(st.book, c, Spying(st, c), sl)
    case _ => true
  }

  lemma EnrolSpares(b: SpyBook, d: Service, none: array<Client>, sl: Slice)
    requires Backed(b, sl) && none !in b.store
    ensures Backed(Enrol(b, d, none), sl) && Contents(Enrol(b, d, none), sl) == Contents(b, sl)
  {
  }

  lemma StepSparesExactly(st: State, step: Step, sl: Slice)
    requires Spies.Inv(st) && Memory.ServicesKnown(st.services, st.book) && Enabled(st, step) && Backed(st.book, sl)
    ensures Backed(Apply(st, step).book, sl)
    ensures Contents(Apply(st, step).book, sl) == Contents(st.book, sl) <==> StepSpares(st, step, sl)
  {
    Runs.BookStep(st, step);
    match step
    case SpiesOn(c, s, room, spare) =>
      assert s == st.services[s.name][s.ident];
      Spies.AppendSparesSnapshotExactly(st.book, c, s, room, spare, sl);
    case Departs(c, _, _) =>
      Runs.SpiedOnAreKnown(st, c);
      Spies.RemovalsSpareExactly(st.book, c, Spying(st, c), sl);
    case Registers(s, none) =>
      EnrolSpares(st.book, s, none, sl);
    case _ =>
  }

  ghost predicate RunSpares(st: State, steps: seq<Step>, sl: Slice)
    requires Legal(st, steps)
    decreases |steps|
  {
    steps == [] ||
    ((Backed(st.book, sl) ==> StepSpares(st, steps[0], sl)) && RunSpares(Apply(st, steps[0]), steps[1..], sl))
  }

  /** Before the run and after each of its steps, the slice reads `list`. */
  ghost predicate AlwaysReads(st: State, steps: seq<Step>, sl: Slice, list: seq<Client>)
    requires Legal(st, steps)
    decreases |steps|
  {
    Contents(st.book, sl) == list && (steps == [] || AlwaysReads(Apply(st, steps[0]), steps[1..], sl, list))
  }

  lemma StepInvParts(st: State, step: Step)
    requires Runs.Inv(st) && Enabled(st, step)
    ensures Spies.Inv(st) && Memory.ServicesKnown(st.services, st.book)
    ensures Runs.Inv(Apply(st, step))
  {
    Runs.StepKeeps(st, step);
  }

  /**
   * A snapshot reads the same at every moment of a run exactly when every spy
   * that comes and every client that leaves meets its condition at the time.
   */
  lemma {:induction false} RunSparesExactly(st: State, steps: seq<Step>, sl: Slice)
    requires Runs.Inv(st) && Legal(st, steps) && Backed(st.book, sl)
    ensures AlwaysReads(st, steps, sl, Contents(st.book, sl)) <==> RunSpares(st, steps, sl)
    decreases |steps|
  {
    if steps != [] {
      StepInvParts(st, steps[0]);
      StepSparesExactly(st, steps[0], sl);
      RunSparesExactly(Apply(st, steps[0]), steps[1..], sl);
    }
  }

  lemma {:induction false} ReadsAtLast(st: State, steps: seq<Step>, sl: Slice, list: seq<Client>)
    requires Legal(st, steps) && AlwaysReads(st, steps, sl, list)
    ensures Contents(Exec(st, steps).book, sl) == list
    decreases |steps|
  {
    if steps != [] {
      ReadsAtLast(Apply(st, steps[0]), steps[1..], sl, list);
    }
  }

  /** An entry keeps its sender and snapshot for as long as it is in the table. */
  lemma EntryStep(st: State, step: Step, id: RequestId)
    requires Enabled(st, step)
    ensures var t := Apply(st, step).table;
            && st.table.next <= t.next
            && (id in t.pending && t.pending[id].timer < st.table.next ==>
                  id in st.table.pending && t.pending[id] == st.table.pending[id])
  {
    Runs.TableStep(st, step);
  }

  lemma {:induction false} EntryFixed(st: State, steps: seq<Step>, id: RequestId)
    requires Legal(st, steps)
    ensures var t := Exec(st, steps).table;
            && st.table.next <= t.next
            && (id in t.pending && t.pending[id].timer < st.table.next ==>
                  id in st.table.pending && t.pending[id] == st.table.pending[id])
    decreases |steps|
  {
    if steps != [] {
      EntryStep(st, steps[0], id);
      EntryFixed(Apply(st, steps[0]), steps[1..], id);
    }
  }

  /** The request is still the one pending under its id: its timer is the one it was given. */
  ghost predicate StillPending(st: State, m: Message, later: State)
    requires m.Request?
  {
    m.id in later.table.pending && later.table.pending[m.id].timer == st.table.next
  }

  /** The reply is copied to the clients that the request was copied to, then sent to the requester. */
  ghost predicate Follows(st: State, c: Client, m: Message, later: State, answer: Answer)
    requires m.Request? && Target(st, m).Some?
  {
    var s := Target(st, m).value;
    var copied := SpiesOf(st.book, s);
    && Requesting(st, c, m).net == SendEach(Send(st.net, s.client, m), copied, m)
    && Replying(later, m.id, answer).net ==
       Send(SendEach(later.net, copied, Reply(m.id, answer)), c, Reply(m.id, answer))
  }

  lemma TargetKnown(st: State, c: Client, m: Message)
    requires Runs.Inv(st) && !st.crashed && Connected(st, c) && m.Request? && Target(st, m).Some?
    ensures var sl := st.book.spies[Target(st, m).value];
            && Runs.Inv(Requesting(st, c, m)) && Spies.Held(st.book, sl, Target(st, m).value)
            && Requesting(st, c, m).table.next == st.table.next + 1
            && Requesting(st, c, m).table.pending[m.id] == R.Entry(c, st.table.next, sl)
  {
    Runs.StepKeeps(st, Requests(c, m));
  }

  lemma EntryIsItsOwn(st: State, c: Client, m: Message, steps: seq<Step>)
    requires m.Request? && Target(st, m).Some? && Legal(Requesting(st, c, m), steps)
    requires StillPending(st, m, Exec(Requesting(st, c, m), steps))
    ensures Exec(Requesting(st, c, m), steps).table.pending[m.id] ==
            R.Entry(c, st.table.next, st.book.spies[Target(st, m).value])
  {
    EntryFixed(Requesting(st, c, m), steps, m.id);
  }

  /**
   * A reply is copied to exactly the list of clients that the request was copied
   * to and then goes to the sender of the request, if in between every spy that
   * came and every client that left met its condition on the snapshot.
   */
  lemma ReplyFollowsRequest(st: State, c: Client, m: Message, steps: seq<Step>, answer: Answer)
    requires Runs.Inv(st) && !st.crashed && Connected(st, c) && m.Request? && Target(st, m).Some?
    requires Legal(Requesting(st, c, m), steps)
    requires RunSpares(Requesting(st, c, m), steps, st.book.spies[Target(st, m).value])
    requires StillPending(st, m, Exec(Requesting(st, c, m), steps))
    ensures Follows(st, c, m, Exec(Requesting(st, c, m), steps), answer)
  {
    var sl := st.book.spies[Target(st, m).value];
    TargetKnown(st, c, m);
    RunSparesExactly(Requesting(st, c, m), steps, sl);
    ReadsAtLast(Requesting(st, c, m), steps, sl, Contents(st.book, sl));
    EntryIsItsOwn(st, c, m, steps);
  }

  /** No client that spies on `s` departs during the run. */
  ghost predicate NoSpyLeaves(st: State, steps: seq<Step>, s: Service)
    requires Legal(st, steps)
    decreases |steps|
  {
    steps == [] || ((steps[0].Departs? ==> s !in Spying(st, steps[0].c)) && NoSpyLeaves(Apply(st, steps[0]), steps[1..], s))
  }

  lemma EnrolHolds(b: SpyBook, d: Service, none: array<Client>, sl: Slice, s: Service)
    requires Spies.Held(b, sl, s) && d !in b.spies && none !in b.store
    ensures Spies.Held(Enrol(b, d, none), sl, s)
  {
  }

  lemma StepHolds(st: State, step: Step, sl: Slice, s: Service)
    requires Spies.Inv(st) && Memory.ServicesKnown(st.services, st.book) && Enabled(st, step)
    requires Spies.Held(st.book, sl, s) && (step.Departs? ==> s !in Spying(st, step.c))
    ensures Spies.Held(Apply(st, step).book, sl, s) && StepSpares(st, step, sl)
  {
    Runs.BookStep(st, step);
    match step
    case SpiesOn(c, d, room, spare) =>
      assert d == st.services[d.name][d.ident];
      Spies.AppendSparesHeld(st.book, c, d, room, spare, sl, s);
    case Departs(c, _, _) =>
      Runs.SpiedOnAreKnown(st, c);
      Spies.DropElsewhereSpares(st.book, c, Spying(st, c), sl, s);
    case Registers(d, none) =>
      EnrolHolds(st.book, d, none, sl, s);
    case _ =>
  }

  /** If no spy of the service leaves, all conditions are met, however many spies join meanwhile. */
  lemma {:induction false} StayingSpiesSpare(st: State, steps: seq<Step>, sl: Slice, s: Service)
    requires Runs.Inv(st) && Legal(st, steps) && NoSpyLeaves(st, steps, s) && Spies.Held(st.book, sl, s)
    ensures RunSpares(st, steps, sl)
    decreases |steps|
  {
    if steps != [] {
      StepInvParts(st, steps[0]);
      StepHolds(st, steps[0], sl, s);
      StayingSpiesSpare(Apply(st, steps[0]), steps[1..], sl, s);
    }
  }

  /** So if no spy of the service leaves in between, the reply follows the request. */
  lemma ReplyFollowsUnlessSpyLeaves(st: State, c: Client, m: Message, steps: seq<Step>, answer: Answer)
    requires Runs.Inv(st) && !st.crashed && Connected(st, c) && m.Request? && Target(st, m).Some?
    requires Legal(Requesting(st, c, m), steps)
    requires NoSpyLeaves(Requesting(st, c, m), steps, Target(st, m).value)
    requires StillPending(st, m, Exec(Requesting(st, c, m), steps))
    ensures Follows(st, c, m, Exec(Requesting(st, c, m), steps), answer)
  {
    var s := Target(st, m).value;
    TargetKnown(st, c, m);
    StayingSpiesSpare(Requesting(st, c, m), steps, st.book.spies[s], s);
    ReplyFollowsRequest(st, c, m, steps, answer);
  }
}
