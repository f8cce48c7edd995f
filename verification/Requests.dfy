/**
 * The table of pending requests (`Broker.reqIds`) and the timers that guard it,
 * with each handler one atomic step. Every accepted request gets a timer of its
 * own, so the timer's number also serves as the request's serial number.
 */
module Requests {
  import opened Seqs
  import opened Objects

  type Timer = nat

  datatype Entry = Entry(sender: Client, timer: Timer, spies: Slice)

  /** What the closure run by a timer has captured. */
  datatype Alarm = Alarm(id: RequestId, client: Client)

  datatype Ending = Replied | TimedOut

  /** A final answer: the entry it ended and the client it was sent to. */
  datatype Final = Final(entry: Entry, id: RequestId, to: Client, how: Ending)

  /**
   * `answers` and `overwritten` are history: the final answers in the order
   * they were sent, and the serials of requests whose entry was replaced by a
   * later request with the same id.
   */
  datatype Table = Table(
    pending: map<RequestId, Entry>,
    armed: map<Timer, Alarm>,
    next: nat,
    answers: seq<Final>,
    overwritten: seq<Timer>)

  const EMPTY_TABLE := Table(map[], map[], 0, [], [])

  /** Track an accepted request: arm its timer, then store its entry. */
  function Track(t: Table, id: RequestId, c: Client, spies: Slice): Table {
    t.(pending := t.pending[id := Entry(c, t.next, spies)],
       armed := t.armed[t.next := Alarm(id, c)],
       next := t.next + 1,
       overwritten := t.overwritten + if id in t.pending then [t.pending[id].timer] else [])
  }

  /** A reply for `id` arrives: drop the entry and stop its timer. */
  function Settle(t: Table, id: RequestId): Table {
    if id !in t.pending then t
    else
      var e := t.pending[id];
      t.(pending := t.pending - {id},
         armed := t.armed - {e.timer},
         answers := t.answers + [Final(e, id, e.sender, Replied)])
  }

  /** Timer `k` fires; it looks the id up again and answers the client it captured. */
  function Expire(t: Table, k: Timer): Table
    requires k in t.armed
  {
    var a := t.armed[k];
    var t' := t.(armed := t.armed - {k});
    if a.id !in t.pending then t'
    else t'.(pending := t.pending - {a.id},
             answers := t.answers + [Final(t.pending[a.id], a.id, a.client, TimedOut)])
  }

  // ------------------------------------------------------------- conservation

  ghost predicate IsPending(t: Table, k: Timer) {
    exists id :: id in t.pending && t.pending[id].timer == k
  }

  /** Serials of the requests that no longer have an entry. */
  function Gone(t: Table): seq<Timer> {
    seq(|t.answers|, i requires 0 <= i < |t.answers| => t.answers[i].entry.timer) + t.overwritten
  }

  /**
   * Every accepted request is, exactly once, either pending, or ended by a
   * final answer, or overwritten.
   */
  ghost predicate Conserved(t: Table) {
    && NoDup(Gone(t))
    && (forall k :: k in Gone(t) ==> !IsPending(t, k))
    && (forall k: nat :: k < t.next <==> k in Gone(t) || IsPending(t, k))
    && |t.pending| + |t.answers| + |t.overwritten| == t.next
  }

  /** Each pending entry is guarded by its own armed timer, for its own id and sender. */
  ghost predicate Guarded(t: Table) {
    && (forall id :: id in t.pending ==>
          var e := t.pending[id];
          e.timer in t.armed && t.armed[e.timer] == Alarm(id, e.sender))
    && (forall k :: k in t.armed ==> k < t.next)
  }

  /** The timers armed are exactly those of the pending entries, and no answer went astray. */
  ghost predicate Exact(t: Table) {
    && (forall k :: k in t.armed ==>
          var id := t.armed[k].id;
          id in t.pending && t.pending[id].timer == k)
    && (forall i :: 0 <= i < |t.answers| ==> t.answers[i].to == t.answers[i].entry.sender)
  }

  /** What holds in every history, whatever ids the clients choose. */
  ghost predicate Inv(t: Table) {
    && Conserved(t)
    && Guarded(t)
    && (t.overwritten == [] ==> Exact(t))
  }

  lemma DropPending(t: Table, id: RequestId, t': Table)
    requires Guarded(t) && id in t.pending && t'.pending == t.pending - {id}
    ensures IsPending(t, t.pending[id].timer)
    ensures forall k :: IsPending(t', k) <==> IsPending(t, k) && k != t.pending[id].timer
  {
    var k0 := t.pending[id].timer;
    forall k
      ensures IsPending(t', k) <==> IsPending(t, k) && k != k0
    {
      if IsPending(t, k) && k != k0 {
        var id' :| id' in t.pending && t.pending[id'].timer == k;
        assert id' in t'.pending && t'.pending[id'].timer == k;
      }
    }
  }

  /** Dropping the entry of `id` and adding its serial to the finished ones, at place `i`, conserves. */
  lemma DropConserves(t: Table, id: RequestId, t': Table, i: nat)
    requires Conserved(t) && Guarded(t) && id in t.pending
    requires t'.pending == t.pending - {id} && t'.next == t.next
    requires |t'.answers| + |t'.overwritten| == |t.answers| + |t.overwritten| + 1
    requires i <= |Gone(t)| && Gone(t') == Gone(t)[..i] + [t.pending[id].timer] + Gone(t)[i..]
    ensures Conserved(t')
  {
    DropPending(t, id, t');
    InsertNoDup(Gone(t), i, t.pending[id].timer);
  }

  lemma AddPending(t: Table, t': Table, id: RequestId, e: Entry)
    requires id !in t.pending && t'.pending == t.pending[id := e]
    ensures forall k :: IsPending(t', k) <==> IsPending(t, k) || k == e.timer
  {
    forall k
      ensures IsPending(t', k) <==> IsPending(t, k) || k == e.timer
    {
      if k == e.timer {
        assert id in t'.pending && t'.pending[id].timer == k;
      } else if IsPending(t, k) {
        var id' :| id' in t.pending && t.pending[id'].timer == k;
        assert id' in t'.pending && t'.pending[id'].timer == k;
      }
    }
  }

  /** Adding an entry under a free id, with the next serial, conserves. */
  lemma AddConserves(t: Table, t': Table, id: RequestId, e: Entry)
    requires Conserved(t) && id !in t.pending && e.timer == t.next
    requires t'.pending == t.pending[id := e] && t'.next == t.next + 1
    requires t'.answers == t.answers && t'.overwritten == t.overwritten
    ensures Conserved(t')
  {
    AddPending(t, t', id, e);
    assert Gone(t') == Gone(t);
    assert t.next !in Gone(t);
  }

  lemma {:induction false} TrackKeeps(t: Table, id: RequestId, c: Client, spies: Slice)
    requires Inv(t)
    ensures Inv(Track(t, id, c, spies))
  {
    // first drop the entry being replaced, if any, then add the new one
    var t0 := t;
    if id in t.pending {
      t0 := t.(pending := t.pending - {id}, overwritten := t.overwritten + [t.pending[id].timer]);
      assert Gone(t0) == Gone(t)[..|Gone(t)|] + [t.pending[id].timer] + Gone(t)[|Gone(t)|..];
      DropConserves(t, id, t0, |Gone(t)|);
    }
    var t' := Track(t, id, c, spies);
    assert t'.pending == t0.pending[id := Entry(c, t.next, spies)];
    AddConserves(t0, t', id, Entry(c, t.next, spies));
  }

  lemma SettleKeeps(t: Table, id: RequestId)
    requires Inv(t)
    ensures Inv(Settle(t, id))
  {
    if id in t.pending {
      var t' := Settle(t, id);
      assert Gone(t') == Gone(t)[..|t.answers|] + [t.pending[id].timer] + Gone(t)[|t.answers|..];
      DropConserves(t, id, t', |t.answers|);
    }
  }

  lemma ExpireKeeps(t: Table, k: Timer)
    requires Inv(t) && k in t.armed
    ensures Inv(Expire(t, k))
  {
    var id := t.armed[k].id;
    var t' := Expire(t, k);
    if id in t.pending {
      assert Gone(t') == Gone(t)[..|t.answers|] + [t.pending[id].timer] + Gone(t)[|t.answers|..];
      DropConserves(t, id, t', |t.answers|);
    } else {
      assert Gone(t') == Gone(t);
      assert t'.pending == t.pending;
      assert forall j :: IsPending(t', j) <==> IsPending(t, j);
    }
  }

  // ---------------------------------------------------------------- histories

  datatype Op = Accept(id: RequestId, client: Client, spies: Slice) | Answered(id: RequestId) | Fired(timer: Timer)

  predicate Enabled(t: Table, op: Op) {
    op.Fired? ==> op.timer in t.armed
  }

  function Do(t: Table, op: Op): Table
    requires Enabled(t, op)
  {
    match op
    case Accept(id, c, spies) => Track(t, id, c, spies)
    case Answered(id) => Settle(t, id)
    case Fired(k) => Expire(t, k)
  }

  ghost predicate Legal(t: Table, ops: seq<Op>)
    decreases |ops|
  {
    ops == [] || (Enabled(t, ops[0]) && Legal(Do(t, ops[0]), ops[1..]))
  }

  function Exec(t: Table, ops: seq<Op>): Table
    requires Legal(t, ops)
    decreases |ops|
  {
    if ops == [] then t else Exec(Do(t, ops[0]), ops[1..])
  }

  /** No request is accepted under an id that is still pending. */
  ghost predicate NoReuse(t: Table, ops: seq<Op>)
    requires Legal(t, ops)
    decreases |ops|
  {
    ops == [] || ((ops[0].Accept? ==> ops[0].id !in t.pending) && NoReuse(Do(t, ops[0]), ops[1..]))
  }

  /** In every history, requests are conserved and pending entries stay guarded. */
  lemma {:induction false} HistoryKeepsInv(t: Table, ops: seq<Op>)
    requires Inv(t) && Legal(t, ops)
    ensures Inv(Exec(t, ops))
    ensures t.overwritten <= Exec(t, ops).overwritten
    ensures Exec(t, ops).overwritten == t.overwritten <==> NoReuse(t, ops)
    decreases |ops|
  {
    if ops != [] {
      match ops[0] {
        case Accept(id, c, spies) => TrackKeeps(t, id, c, spies);
        case Answered(id) => SettleKeeps(t, id);
        case Fired(k) => ExpireKeeps(t, k);
      }
      HistoryKeepsInv(Do(t, ops[0]), ops[1..]);
    }
  }

  // ----------------------------------------------------------------- draining

  ghost predicate Enumerates(order: seq<Timer>, timers: set<Timer>) {
    NoDup(order) && forall k :: k in order <==> k in timers
  }

  /** The history in which the timers of `order` fire one after the other. */
  function Firings(order: seq<Timer>): seq<Op> {
    seq(|order|, i requires 0 <= i < |order| => Fired(order[i]))
  }

  lemma {:induction false} FiringsEmpty(t: Table, order: seq<Timer>)
    requires Inv(t) && Enumerates(order, t.armed.Keys)
    ensures Legal(t, Firings(order))
    ensures var t' := Exec(t, Firings(order));
            t'.pending == map[] && t'.armed == map[] && t'.next == t.next && t'.overwritten == t.overwritten
    decreases |order|
  {
    if order == [] {
      assert t.armed.Keys == {};
      assert t.pending.Keys == {};
    } else {
      ExpireKeeps(t, order[0]);
      assert Firings(order)[1..] == Firings(order[1..]);
      RestEnumerates(order, t.armed.Keys);
      FiringsEmpty(Expire(t, order[0]), order[1..]);
    }
  }

  lemma RestEnumerates(order: seq<Timer>, timers: set<Timer>)
    requires Enumerates(order, timers) && order != []
    ensures Enumerates(order[1..], timers - {order[0]})
  {
    assert forall j :: j in order <==> j == order[0] || j in order[1..];
  }

  ghost predicate HasAnswer(t: Table, k: Timer) {
    exists i :: 0 <= i < |t.answers| && t.answers[i].entry.timer == k
  }

  /** Every accepted request has had exactly one final answer, sent to its issuer. */
  ghost predicate AllAnswered(t: Table) {
    && (forall k: nat | k < t.next :: HasAnswer(t, k))
    && (forall i, j :: 0 <= i < j < |t.answers| ==> t.answers[i].entry.timer != t.answers[j].entry.timer)
    && (forall i :: 0 <= i < |t.answers| ==> t.answers[i].to == t.answers[i].entry.sender)
  }

  lemma EmptyTableAnswers(t: Table)
    requires Inv(t) && t.pending == map[]
    ensures AllAnswered(t) <==> t.overwritten == []
  {
    var gone := Gone(t);
    assert forall i :: 0 <= i < |t.answers| ==> t.answers[i].entry.timer == gone[i];
    if t.overwritten == [] {
      forall k: nat | k < t.next
        ensures HasAnswer(t, k)
      {
        assert k in gone;
        var i :| 0 <= i < |gone| && gone[i] == k;
        assert t.answers[i].entry.timer == k;
      }
    } else {
      assert gone[|t.answers|] == t.overwritten[0];
      assert t.overwritten[0] in gone && !HasAnswer(t, t.overwritten[0]);
    }
  }

  /**
   * From any state a history can reach, letting every armed timer fire, in any
   * order, empties the table; and then every accepted request has been answered
   * exactly once and to its issuer if and only if no id was ever reused while
   * it was still pending.
   */
  lemma DrainingAnswersAll(ops: seq<Op>, order: seq<Timer>)
    requires Legal(EMPTY_TABLE, ops)
    requires Enumerates(order, Exec(EMPTY_TABLE, ops).armed.Keys)
    ensures Legal(Exec(EMPTY_TABLE, ops), Firings(order))
    ensures var t' := Exec(Exec(EMPTY_TABLE, ops), Firings(order));
            t'.pending == map[] && t'.armed == map[] && (AllAnswered(t') <==> NoReuse(EMPTY_TABLE, ops))
  {
    HistoryKeepsInv(EMPTY_TABLE, ops);
    var t := Exec(EMPTY_TABLE, ops);
    FiringsEmpty(t, order);
    HistoryKeepsInv(t, Firings(order));
    EmptyTableAnswers(Exec(t, Firings(order)));
  }

  /**
   * Why the condition is needed: when `id` is reused while pending, the first
   * request's timer stays armed, and when it fires it ends the second request
   * while telling the first issuer; the second issuer is never answered.
   */
  lemma ReuseMisroutes(t: Table, id: RequestId, c: Client, spies: Slice)
    requires Inv(t) && id in t.pending
    ensures var first := t.pending[id];
            var t1 := Track(t, id, c, spies);
            && first.timer in t1.armed
            && var t2 := Expire(t1, first.timer);
               && id !in t2.pending
               && t2.answers == t.answers + [Final(Entry(c, t.next, spies), id, first.sender, TimedOut)]
  {
  }
}
