/**
 * Request tracking at the granularity of the source's lock sections. The look-up
 * of a pending entry and its deletion are two critical sections, both in the
 * reply handler and in the closure run by a timer, so handlers interleave
 * between them: a reply and a timeout can both find the entry before either
 * deletes it. Request ids are taken to be distinct over the run.
 */
module LockSections {
  import opened Objects
  import opened Options
  import R = Requests

  /** How far a handler that found its entry has come. */
  datatype Pc = Found | Removed | Stopped | Done

  /** A handler that found an entry: the client it will answer, and the request's timer. */
  datatype Worker = Worker(id: RequestId, to: Client, timer: R.Timer, how: R.Ending, pc: Pc)

  /** What can be observed: successful look-ups, deletions, answers, and timers that found nothing. */
  datatype Mark = Looked(id: RequestId) | Deleted(id: RequestId) | Answered(id: RequestId, to: Client) | Missed(timer: R.Timer)

  /** Request number `k` was issued as `issued[k]`; it waits until its entry is stored. */
  datatype State = State(
    pending: map<RequestId, R.Entry>,
    armed: map<R.Timer, R.Alarm>,
    issued: seq<R.Alarm>,
    waiting: map<R.Timer, Slice>,
    workers: seq<Worker>,
    trace: seq<Mark>)

  const START := State(map[], map[], [], map[], [], [])

  datatype Step =
    | Arm(id: RequestId, c: Client, spies: Slice)  // time.AfterFunc
    | Insert(timer: R.Timer)                        // first section of the request handler
    | LookReply(id: RequestId)                      // first section of the reply handler
    | LookTimer(timer: R.Timer)                     // the timer fires: first section of its closure
    | Delete(w: nat)                                // second section of either
    | Stop(w: nat)                                  // timer.Stop()
    | Send(w: nat)                                  // the answer is written

  ghost predicate Fresh(st: State, id: RequestId) {
    forall k :: 0 <= k < |st.issued| ==> st.issued[k].id != id
  }

  ghost predicate Enabled(st: State, step: Step) {
    match step
    case Arm(id, _, _) => Fresh(st, id)
    case Insert(k) => k in st.waiting && k < |st.issued|
    case LookReply(_) => true
    case LookTimer(k) => k in st.armed
    case Delete(w) => w < |st.workers| && st.workers[w].pc == Found
    case Stop(w) => w < |st.workers| && st.workers[w].pc == Removed && st.workers[w].how == R.Replied
    case Send(w) => w < |st.workers| && st.workers[w].pc == if st.workers[w].how == R.Replied then Stopped else Removed
  }

  function Advance(st: State, w: nat, pc: Pc): seq<Worker>
    requires w < |st.workers|
  {
    st.workers[w := st.workers[w].(pc := pc)]
  }

  ghost function Apply(st: State, step: Step): State
    requires Enabled(st, step)
  {
    match step
    case Arm(id, c, spies) =>
      var k := |st.issued|;
      st.(armed := st.armed[k := R.Alarm(id, c)], issued := st.issued + [R.Alarm(id, c)], waiting := st.waiting[k := spies])
    case Insert(k) =>
      var a := st.issued[k];
      st.(pending := st.pending[a.id := R.Entry(a.client, k, st.waiting[k])], waiting := st.waiting - {k})
    case LookReply(id) =>
      if id !in st.pending then st
      else
        var e := st.pending[id];
        st.(workers := st.workers + [Worker(id, e.sender, e.timer, R.Replied, Found)], trace := st.trace + [Looked(id)])
    case LookTimer(k) =>
      var a := st.armed[k];
      if a.id !in st.pending then st.(armed := st.armed - {k}, trace := st.trace + [Missed(k)])
      else st.(armed := st.armed - {k},
               workers := st.workers + [Worker(a.id, a.client, k, R.TimedOut, Found)],
               trace := st.trace + [Looked(a.id)])
    case Delete(w) =>
      st.(pending := st.pending - {st.workers[w].id},
          workers := Advance(st, w, Removed),
          trace := st.trace + [Deleted(st.workers[w].id)])
    case Stop(w) => st.(armed := st.armed - {st.workers[w].timer}, workers := Advance(st, w, Stopped))
    case Send(w) =>
      st.(workers := Advance(st, w, Done), trace := st.trace + [Answered(st.workers[w].id, st.workers[w].to)])
  }

  ghost predicate Legal(st: State, steps: seq<Step>)
    decreases |steps|
  {
    steps == [] || (Enabled(st, steps[0]) && Legal(Apply(st, steps[0]), steps[1..]))
  }

  ghost function Exec(st: State, steps: seq<Step>): State
    requires Legal(st, steps)
    decreases |steps|
  {
    if steps == [] then st else Exec(Apply(st, steps[0]), steps[1..])
  }

  // ------------------------------------------------------------ the invariant

  ghost predicate Distinct(st: State) {
    forall i, j :: 0 <= i < j < |st.issued| ==> st.issued[i].id != st.issued[j].id
  }

  /** `id` was issued by `c` as request number `k`. */
  predicate Issued(st: State, k: R.Timer, id: RequestId, c: Client) {
    k < |st.issued| && st.issued[k] == R.Alarm(id, c)
  }

  ghost predicate EntryOk(st: State, id: RequestId) {
    id in st.pending ==>
      Issued(st, st.pending[id].timer, id, st.pending[id].sender) && st.pending[id].timer !in st.waiting
  }

  ghost predicate TimerOk(st: State, k: R.Timer) {
    && (k in st.armed ==> k < |st.issued| && st.armed[k] == st.issued[k])
    && (k in st.waiting ==> k < |st.issued|)
  }

  ghost predicate HandlerOk(st: State, w: nat) {
    w < |st.workers| ==>
      var h := st.workers[w];
      Issued(st, h.timer, h.id, h.to) && h.timer !in st.waiting
  }

  /** Entries, alarms and handlers all stand for issued requests. */
  ghost predicate Rooted(st: State) {
    (forall id :: EntryOk(st, id)) && (forall k :: TimerOk(st, k)) && (forall w :: HandlerOk(st, w))
  }

  /** An id that has been deleted is not pending, and no handler finds it later. */
  ghost predicate Gone(st: State, id: RequestId) {
    Deleted(id) in st.trace ==> id !in st.pending && forall k :: k in st.waiting ==> k < |st.issued| && st.issued[k].id != id
  }

  ghost predicate LooksFirst(trace: seq<Mark>) {
    forall i, j {:trigger trace[i], trace[j]} :: 0 <= i < j < |trace| && trace[i].Deleted? ==> trace[j] != Looked(trace[i].id)
  }

  function Handlers(st: State, id: RequestId): set<nat> {
    set w | 0 <= w < |st.workers| && st.workers[w].id == id
  }

  function Finished(st: State, id: RequestId): set<nat> {
    set w | 0 <= w < |st.workers| && st.workers[w].id == id && st.workers[w].pc == Done
  }

  /** Look-ups, and answers of any handler for `id`, counted on the trace. */
  function Looks(trace: seq<Mark>, id: RequestId): nat {
    multiset(trace)[Looked(id)]
  }

  function Answers(trace: seq<Mark>, id: RequestId): (n: nat)
  {
    if trace == [] then 0
    else Answers(trace[..|trace| - 1], id) + if trace[|trace| - 1].Answered? && trace[|trace| - 1].id == id then 1 else 0
  }

  ghost predicate Counted(st: State, id: RequestId) {
    Looks(st.trace, id) == |Handlers(st, id)| && Answers(st.trace, id) == |Finished(st, id)|
  }

  /** Every answer goes to the client that issued the id. */
  ghost predicate Routed(st: State) {
    forall i :: 0 <= i < |st.trace| && st.trace[i].Answered? ==>
      exists k :: Issued(st, k, st.trace[i].id, st.trace[i].to)
  }

  ghost predicate HasHandler(st: State, k: R.Timer) {
    exists w :: 0 <= w < |st.workers| && st.workers[w].timer == k
  }

  /** A timer is armed until it fires or is stopped: then it missed, or a handler was at work. */
  ghost predicate Watched(st: State, k: R.Timer) {
    && (k < |st.issued| ==> k in st.armed || Missed(k) in st.trace || HasHandler(st, k))
    && (Missed(k) in st.trace ==> k < |st.issued| && k !in st.armed)
  }

  /** Once stored, an entry stays until it is deleted; a handler past its second section has deleted it. */
  ghost predicate Kept(st: State) {
    && (forall k :: 0 <= k < |st.issued| && k !in st.waiting ==> st.issued[k].id in st.pending || Deleted(st.issued[k].id) in st.trace)
    && (forall w :: 0 <= w < |st.workers| && st.workers[w].pc != Found ==> Deleted(st.workers[w].id) in st.trace)
    && (forall id :: Deleted(id) in st.trace ==> exists w :: 0 <= w < |st.workers| && st.workers[w].id == id && st.workers[w].pc != Found)
  }

  ghost predicate Inv(st: State) {
    && Distinct(st) && Rooted(st) && LooksFirst(st.trace) && Routed(st) && Kept(st)
    && (forall id :: Gone(st, id))
    && (forall id :: Counted(st, id))
    && (forall k :: Watched(st, k))
  }

  lemma LooksSnoc(trace: seq<Mark>, m: Mark, id: RequestId)
    ensures Looks(trace + [m], id) == Looks(trace, id) + if m == Looked(id) then 1 else 0
    ensures Answers(trace + [m], id) == Answers(trace, id) + if m.Answered? && m.id == id then 1 else 0
  {
    assert (trace + [m])[..|trace|] == trace;
  }

  lemma KeepsDistinct(st: State, step: Step)
    requires Distinct(st) && Enabled(st, step)
    ensures Distinct(Apply(st, step))
  {
  }

  lemma KeepsEntry(st: State, step: Step, id: RequestId)
    requires EntryOk(st, id) && Enabled(st, step)
    ensures EntryOk(Apply(st, step), id)
  {
  }

  lemma KeepsTimer(st: State, step: Step, k: R.Timer)
    requires TimerOk(st, k) && Enabled(st, step)
    ensures TimerOk(Apply(st, step), k)
  {
  }

  lemma KeepsHandler(st: State, step: Step, w: nat)
    requires Distinct(st) && Rooted(st) && Enabled(st, step)
    ensures HandlerOk(Apply(st, step), w)
  {
    assert HandlerOk(st, w);
    match step
    case LookReply(id) => assert EntryOk(st, id);
    case LookTimer(k) => assert TimerOk(st, k) && EntryOk(st, st.armed[k].id);
    case _ =>
  }

  lemma KeepsRooted(st: State, step: Step)
    requires Distinct(st) && Rooted(st) && Enabled(st, step)
    ensures Rooted(Apply(st, step))
  {
    forall id
      ensures EntryOk(Apply(st, step), id)
    {
      KeepsEntry(st, step, id);
    }
    forall k
      ensures TimerOk(Apply(st, step), k)
    {
      KeepsTimer(st, step, k);
    }
    forall w
      ensures HandlerOk(Apply(st, step), w)
    {
      KeepsHandler(st, step, w);
    }
  }

  lemma KeepsGone(st: State, step: Step, id: RequestId)
    requires Distinct(st) && Rooted(st) && Kept(st) && Gone(st, id) && Enabled(st, step)
    ensures Gone(Apply(st, step), id)
  {
    var st' := Apply(st, step);
    match step
    case Arm(id', c, spies) =>
      if Deleted(id) in st.trace {
        var w :| 0 <= w < |st.workers| && st.workers[w].id == id;
        assert HandlerOk(st, w);
      }
    case Delete(w) =>
      assert HandlerOk(st, w);
      forall k | k in st'.waiting && st.workers[w].id == id
        ensures k < |st.issued| && st.issued[k].id != id
      {
        assert TimerOk(st, k);
      }
    case _ =>
  }

  lemma KeepsCounted(st: State, step: Step, id: RequestId)
    requires Counted(st, id) && Enabled(st, step)
    ensures Counted(Apply(st, step), id)
  {
    match step
    case LookReply(_) => LookKeepsCounted(st, step, id);
    case LookTimer(_) => LookKeepsCounted(st, step, id);
    case Delete(w) => MoveKeepsCounted(st, step, w, id);
    case Stop(w) => MoveKeepsCounted(st, step, w, id);
    case Send(w) => MoveKeepsCounted(st, step, w, id);
    case _ => assert Handlers(Apply(st, step), id) == Handlers(st, id) && Finished(Apply(st, step), id) == Finished(st, id);
  }

  /** A look-up that finds an entry puts one more handler to work. */
  lemma HiredCounted(st: State, st': State, h: Worker, id: RequestId)
    requires Counted(st, id) && h.pc == Found
    requires st'.workers == st.workers + [h] && st'.trace == st.trace + [Looked(h.id)]
    ensures Counted(st', id)
  {
    Hired(st, st', id);
    LooksSnoc(st.trace, Looked(h.id), id);
  }

  lemma LookKeepsCounted(st: State, step: Step, id: RequestId)
    requires Counted(st, id) && Enabled(st, step) && (step.LookReply? || step.LookTimer?)
    ensures Counted(Apply(st, step), id)
  {
    var st' := Apply(st, step);
    if st'.workers == st.workers {
      assert Handlers(st', id) == Handlers(st, id) && Finished(st', id) == Finished(st, id);
      if step.LookTimer? {
        LooksSnoc(st.trace, Missed(step.timer), id);
      }
    } else {
      HiredCounted(st, st', st'.workers[|st.workers|], id);
    }
  }

  lemma MoveKeepsCounted(st: State, step: Step, w: nat, id: RequestId)
    requires Counted(st, id) && Enabled(st, step) && (step == Delete(w) || step == Stop(w) || step == Send(w))
    ensures Counted(Apply(st, step), id)
  {
    Moved(st, Apply(st, step), w, id);
    LooksSnoc(st.trace, Deleted(st.workers[w].id), id);
    LooksSnoc(st.trace, Answered(st.workers[w].id, st.workers[w].to), id);
  }

  lemma Hired(st: State, st': State, id: RequestId)
    requires st'.workers == st.workers || (exists h: Worker :: h.pc == Found && st'.workers == st.workers + [h])
    ensures |Handlers(st', id)| == |Handlers(st, id)| +
              if |st'.workers| > |st.workers| && st'.workers[|st.workers|].id == id then 1 else 0
    ensures Finished(st', id) == Finished(st, id)
  {
    if |st'.workers| > |st.workers| {
      var n := |st.workers|;
      assert Handlers(st', id) == Handlers(st, id) + if st'.workers[n].id == id then {n} else {};
    }
  }

  lemma Moved(st: State, st': State, w: nat, id: RequestId)
    requires w < |st.workers| && st.workers[w].pc != Done
    requires exists pc :: st'.workers == Advance(st, w, pc)
    ensures Handlers(st', id) == Handlers(st, id)
    ensures |Finished(st', id)| == |Finished(st, id)| + if st'.workers[w].pc == Done && st.workers[w].id == id then 1 else 0
  {
    assert Finished(st', id) == Finished(st, id) + if st'.workers[w].pc == Done && st.workers[w].id == id then {w} else {};
  }

  lemma KeepsRouted(st: State, step: Step)
    requires Rooted(st) && Routed(st) && Enabled(st, step)
    ensures Routed(Apply(st, step))
  {
    var st' := Apply(st, step);
    forall i | 0 <= i < |st'.trace| && st'.trace[i].Answered?
      ensures exists k :: Issued(st', k, st'.trace[i].id, st'.trace[i].to)
    {
      if i < |st.trace| {
        var k :| Issued(st, k, st.trace[i].id, st.trace[i].to);
        assert Issued(st', k, st'.trace[i].id, st'.trace[i].to);
      } else {
        assert HandlerOk(st, step.w);
        assert Issued(st', st.workers[step.w].timer, st'.trace[i].id, st'.trace[i].to);
      }
    }
  }

  lemma KeepsLooks(st: State, step: Step)
    requires LooksFirst(st.trace) && Enabled(st, step) && Rooted(st)
    requires forall id :: Gone(st, id)
    ensures LooksFirst(Apply(st, step).trace)
  {
    var st' := Apply(st, step);
    forall i, j | 0 <= i < j < |st'.trace| && st'.trace[i].Deleted?
      ensures st'.trace[j] != Looked(st'.trace[i].id)
    {
      if j == |st.trace| {
        assert Gone(st, st'.trace[i].id) && Deleted(st'.trace[i].id) in st.trace;
      }
    }
  }

  lemma KeepsWatched(st: State, step: Step, k: R.Timer)
    requires Distinct(st) && Rooted(st) && Watched(st, k) && Enabled(st, step)
    ensures Watched(Apply(st, step), k)
  {
    var st' := Apply(st, step);
    if HasHandler(st, k) {
      var w :| 0 <= w < |st.workers| && st.workers[w].timer == k;
      assert st'.workers[w].timer == k;
    }
    match step
    case LookTimer(j) =>
      assert TimerOk(st, j);
      if j == k && st.armed[k].id in st.pending {
        assert st'.workers[|st.workers|].timer == k;
      }
    case Stop(w) =>
      assert st'.workers[w].timer == st.workers[w].timer;
    case _ =>
  }

  lemma KeepsKept(st: State, step: Step)
    requires Rooted(st) && Kept(st) && Enabled(st, step)
    ensures Kept(Apply(st, step))
  {
    var st' := Apply(st, step);
    forall k | 0 <= k < |st'.issued| && k !in st'.waiting
      ensures st'.issued[k].id in st'.pending || Deleted(st'.issued[k].id) in st'.trace
    {
      if step.Delete? {
        assert st'.trace[|st.trace|] == Deleted(st.workers[step.w].id);
      }
    }
    forall w | 0 <= w < |st'.workers| && st'.workers[w].pc != Found
      ensures Deleted(st'.workers[w].id) in st'.trace
    {
      if step.Delete? {
        assert st'.trace[|st.trace|] == Deleted(st.workers[step.w].id);
      }
    }
    forall id | Deleted(id) in st'.trace
      ensures exists w :: 0 <= w < |st'.workers| && st'.workers[w].id == id && st'.workers[w].pc != Found
    {
      if Deleted(id) in st.trace {
        var w :| 0 <= w < |st.workers| && st.workers[w].id == id && st.workers[w].pc != Found;
        assert st'.workers[w].id == id && st'.workers[w].pc != Found;
      } else {
        assert st'.workers[step.w].id == id;
      }
    }
  }

  lemma StepKeeps(st: State, step: Step)
    requires Inv(st) && Enabled(st, step)
    ensures Inv(Apply(st, step))
  {
    var st' := Apply(st, step);
    KeepsDistinct(st, step);
    KeepsRooted(st, step);
    KeepsLooks(st, step);
    KeepsRouted(st, step);
    KeepsKept(st, step);
    forall id
      ensures Gone(st', id) && Counted(st', id)
    {
      KeepsGone(st, step, id);
      KeepsCounted(st, step, id);
    }
    forall k
      ensures Watched(st', k)
    {
      KeepsWatched(st, step, k);
    }
  }

  lemma {:induction false} RunKeeps(st: State, steps: seq<Step>)
    requires Inv(st) && Legal(st, steps)
    ensures Inv(Exec(st, steps))
    decreases |steps|
  {
    if steps != [] {
      StepKeeps(st, steps[0]);
      RunKeeps(Apply(st, steps[0]), steps[1..]);
    }
  }

  lemma Reachable(steps: seq<Step>)
    requires Legal(START, steps)
    ensures Inv(Exec(START, steps))
  {
    forall id
      ensures Counted(START, id)
    {
      assert Handlers(START, id) == {} && Finished(START, id) == {};
    }
    RunKeeps(START, steps);
  }

  // ----------------------------------------------------------------- theorems

  /** `c` is the client that issued `id` in this run. */
  ghost predicate Issuer(st: State, id: RequestId, c: Client) {
    exists k :: Issued(st, k, id, c)
  }

  lemma OneIssuer(st: State, id: RequestId, c: Client, d: Client)
    requires Distinct(st) && Issuer(st, id, c) && Issuer(st, id, d)
    ensures c == d
  {
    var j :| Issued(st, j, id, c);
    var k :| Issued(st, k, id, d);
    assert j == k;
  }

  /** `GetRequestSender`: what the table says of an id. */
  function Sender(st: State, id: RequestId): Option<Client> {
    if id in st.pending then Some(st.pending[id].sender) else None
  }

  /**
   * Routing, however the lock sections interleave: every answer is sent to the
   * one client that issued its id, and the table never names anyone else.
   */
  lemma RoutingHolds(steps: seq<Step>, id: RequestId, c: Client)
    requires Legal(START, steps) && Issuer(Exec(START, steps), id, c)
    ensures var st := Exec(START, steps);
            && (Sender(st, id) == None || Sender(st, id) == Some(c))
            && forall d :: Answered(id, d) in st.trace ==> d == c
  {
    Reachable(steps);
    var st := Exec(START, steps);
    if id in st.pending {
      assert EntryOk(st, id);
      OneIssuer(st, id, c, st.pending[id].sender);
    }
    forall d | Answered(id, d) in st.trace
      ensures d == c
    {
      var i :| 0 <= i < |st.trace| && st.trace[i] == Answered(id, d);
      OneIssuer(st, id, c, d);
    }
  }

  /** A deleted id never comes back, whatever happens next. */
  lemma DeletedStaysDeleted(steps: seq<Step>, more: seq<Step>, id: RequestId)
    requires Legal(START, steps) && Legal(Exec(START, steps), more)
    requires Deleted(id) in Exec(START, steps).trace
    ensures id !in Exec(Exec(START, steps), more).pending
  {
    Reachable(steps);
    RunKeeps(Exec(START, steps), more);
    TraceGrows(Exec(START, steps), more);
    assert Gone(Exec(Exec(START, steps), more), id);
  }

  lemma {:induction false} TraceGrows(st: State, steps: seq<Step>)
    requires Legal(st, steps)
    ensures st.trace <= Exec(st, steps).trace
    decreases |steps|
  {
    if steps != [] {
      TraceGrows(Apply(st, steps[0]), steps[1..]);
    }
  }

  /** The part of the trace before the first deletion of `id`. */
  function BeforeDeletion(trace: seq<Mark>, id: RequestId): (p: seq<Mark>)
    ensures p <= trace
  {
    if trace == [] || trace[0] == Deleted(id) then []
    else [trace[0]] + BeforeDeletion(trace[1..], id)
  }

  lemma {:induction false} LooksBeforeDeletion(trace: seq<Mark>, id: RequestId)
    requires LooksFirst(trace)
    ensures Looks(BeforeDeletion(trace, id), id) == Looks(trace, id)
  {
    if trace != [] {
      assert trace == [trace[0]] + trace[1..];
      if trace[0] == Deleted(id) {
        assert forall j :: 0 <= j < |trace| ==> trace[j] != Looked(id);
      } else {
        assert LooksFirst(trace[1..]) by {
          forall i, j | 0 <= i < j < |trace[1..]| && trace[1..][i].Deleted?
            ensures trace[1..][j] != Looked(trace[1..][i].id)
          {
            assert trace[i + 1].Deleted? && trace[j + 1] != Looked(trace[i + 1].id);
          }
        }
        LooksBeforeDeletion(trace[1..], id);
      }
    }
  }

  ghost predicate Settled(st: State, id: RequestId) {
    forall w :: 0 <= w < |st.workers| && st.workers[w].id == id ==> st.workers[w].pc == Done
  }

  /**
   * The bound that replaces at-most-once: the answers for an id number at most
   * the look-ups that found it before its first deletion, and exactly as many
   * once its handlers have finished. So an id is answered at most once if and
   * only if no second handler got past its look-up in time.
   */
  lemma AnswersAreLookUps(steps: seq<Step>, id: RequestId)
    requires Legal(START, steps)
    ensures var st := Exec(START, steps);
            var n := Looks(BeforeDeletion(st.trace, id), id);
            && Answers(st.trace, id) <= n
            && (Answers(st.trace, id) == n <==> Settled(st, id))
  {
    Reachable(steps);
    var st := Exec(START, steps);
    LooksBeforeDeletion(st.trace, id);
    assert Counted(st, id);
    SubsetSize(Finished(st, id), Handlers(st, id));
    if Finished(st, id) == Handlers(st, id) {
      forall w | 0 <= w < |st.workers| && st.workers[w].id == id
        ensures st.workers[w].pc == Done
      {
        assert w in Handlers(st, id);
      }
    } else {
      var w :| w in Handlers(st, id) && w !in Finished(st, id);
    }
  }

  lemma {:induction false} SubsetSize(a: set<nat>, b: set<nat>)
    requires a <= b
    ensures |a| <= |b| && (|a| == |b| <==> a == b)
  {
    assert b == a + (b - a);
    assert |b| == |a| + |b - a|;
  }

  lemma Unrolled(st: State, step: Step, rest: seq<Step>)
    requires Enabled(st, step) && Legal(Apply(st, step), rest)
    ensures Legal(st, [step] + rest) && Exec(st, [step] + rest) == Exec(Apply(st, step), rest)
  {
    assert ([step] + rest)[1..] == rest;
  }

  /** Handlers `v` and `w` have both found the entry; here is how both go on to answer. */
  function BothGoOn(v: nat, w: nat): seq<Step> {
    [Delete(v)] + ([Delete(w)] + ([Stop(v)] + ([Send(v)] + ([Send(w)] + []))))
  }

  lemma BothAnswer(st: State, v: nat, w: nat, id: RequestId)
    requires v < |st.workers| && w < |st.workers| && st.workers[v].id == id == st.workers[w].id
    requires st.workers[v].pc == Found == st.workers[w].pc && st.workers[v].how == R.Replied && st.workers[w].how == R.TimedOut
    ensures Legal(st, BothGoOn(v, w))
    ensures Exec(st, BothGoOn(v, w)).trace ==
            st.trace + [Deleted(id)] + [Deleted(id)] + [Answered(id, st.workers[v].to)] + [Answered(id, st.workers[w].to)]
  {
    var s1 := Apply(st, Delete(v));
    var s2 := Apply(s1, Delete(w));
    var s3 := Apply(s2, Stop(v));
    var s4 := Apply(s3, Send(v));
    Unrolled(s4, Send(w), []);
    Unrolled(s3, Send(v), [Send(w)] + []);
    Unrolled(s2, Stop(v), [Send(v)] + ([Send(w)] + []));
    Unrolled(s1, Delete(w), [Stop(v)] + ([Send(v)] + ([Send(w)] + [])));
    Unrolled(st, Delete(v), [Delete(w)] + ([Stop(v)] + ([Send(v)] + ([Send(w)] + []))));
  }

  lemma TwoMore(trace: seq<Mark>, id: RequestId, c: Client, d: Client)
    ensures Answers(trace + [Deleted(id)] + [Deleted(id)] + [Answered(id, c)] + [Answered(id, d)], id) == Answers(trace, id) + 2
  {
    LooksSnoc(trace, Deleted(id), id);
    LooksSnoc(trace + [Deleted(id)], Deleted(id), id);
    LooksSnoc(trace + [Deleted(id)] + [Deleted(id)], Answered(id, c), id);
    LooksSnoc(trace + [Deleted(id)] + [Deleted(id)] + [Answered(id, c)], Answered(id, d), id);
  }

  /**
   * Both a reply and a timeout can pass their look-ups before either deletes:
   * from any state where a stored request's timer is armed, there is a way on
   * in which its issuer is answered twice.
   */
  lemma TwoAnswersPossible(st: State, id: RequestId)
    requires Inv(st) && id in st.pending && st.pending[id].timer in st.armed
    ensures var n := |st.workers|;
            var race := [LookReply(id)] + ([LookTimer(st.pending[id].timer)] + BothGoOn(n, n + 1));
            Legal(st, race) && Answers(Exec(st, race).trace, id) == Answers(st.trace, id) + 2
  {
    var e := st.pending[id];
    var n := |st.workers|;
    assert EntryOk(st, id) && TimerOk(st, e.timer);
    var s1 := Apply(st, LookReply(id));
    var s2 := Apply(s1, LookTimer(e.timer));
    LooksSnoc(st.trace, Looked(id), id);
    LooksSnoc(s1.trace, Looked(id), id);
    BothAnswer(s2, n, n + 1, id);
    TwoMore(s2.trace, id, s2.workers[n].to, s2.workers[n + 1].to);
    Unrolled(s1, LookTimer(e.timer), BothGoOn(n, n + 1));
    Unrolled(st, LookReply(id), [LookTimer(e.timer)] + BothGoOn(n, n + 1));
  }

  // ------------------------------------------------------- timers and draining

  /** Nothing is under way: no timer armed, no entry about to be stored, no handler unfinished. */
  ghost predicate Quiescent(st: State) {
    st.armed == map[] && st.waiting == map[] && forall w :: 0 <= w < |st.workers| ==> st.workers[w].pc == Done
  }

  /**
   * Every timer guards its entry unless it fired in the gap between arming it
   * and storing the entry. When all is quiet, the requests still pending are
   * exactly those whose timer fired too early and that no reply has ended; all
   * others have been answered.
   */
  lemma QuietExceptMissed(steps: seq<Step>, k: R.Timer)
    requires Legal(START, steps)
    requires var st := Exec(START, steps); Quiescent(st) && k < |st.issued|
    ensures var st := Exec(START, steps);
            var id := st.issued[k].id;
            && (id in st.pending <==> Answers(st.trace, id) == 0)
            && (id in st.pending ==> Missed(k) in st.trace)
  {
    Reachable(steps);
    var st := Exec(START, steps);
    var id := st.issued[k].id;
    assert Counted(st, id) && Gone(st, id) && Watched(st, k) && EntryOk(st, id);
    if id in st.pending {
      assert st.pending[id].timer == k;
      NoHandlerYet(st, id, k);
    } else {
      assert Deleted(id) in st.trace;
      var w :| 0 <= w < |st.workers| && st.workers[w].id == id && st.workers[w].pc != Found;
      assert w in Finished(st, id);
    }
  }

  /** Without unfinished handlers, a pending id has had none. */
  lemma NoHandlerYet(st: State, id: RequestId, k: R.Timer)
    requires Inv(st) && id in st.pending && st.pending[id].timer == k
    requires forall w :: 0 <= w < |st.workers| ==> st.workers[w].pc == Done
    ensures !HasHandler(st, k) && Handlers(st, id) == {} && Finished(st, id) == {}
  {
    assert Gone(st, id) && EntryOk(st, id);
    forall w | 0 <= w < |st.workers|
      ensures st.workers[w].id != id && st.workers[w].timer != k
    {
      assert Deleted(st.workers[w].id) in st.trace;
      assert HandlerOk(st, w);
    }
  }

  /** The gap exists: a timer that fires in it leaves its request pending and unguarded. */
  lemma EarlyTimerStrands(id: RequestId, c: Client, spies: Slice)
    ensures var steps := [Arm(id, c, spies)] + ([LookTimer(0)] + ([Insert(0)] + []));
            && Legal(START, steps)
            && var st := Exec(START, steps);
               Quiescent(st) && id in st.pending && Answers(st.trace, id) == 0
  {
    var s1 := Apply(START, Arm(id, c, spies));
    var s2 := Apply(s1, LookTimer(0));
    var s3 := Apply(s2, Insert(0));
    Unrolled(s2, Insert(0), []);
    Unrolled(s1, LookTimer(0), [Insert(0)] + []);
    Unrolled(START, Arm(id, c, spies), [LookTimer(0)] + ([Insert(0)] + []));
    LooksSnoc([], Missed(0), id);
    assert s2.trace == [] + [Missed(0)];
  }

  // ---------------------------------------------- atomic handlers as special runs

  /** The part of the state that the atomic model has too. */
  ghost predicate Shows(st: State, t: R.Table) {
    st.pending == t.pending && st.armed == t.armed && |st.issued| == t.next
  }

  /** A request handler that is not interleaved does what `Requests.Track` does. */
  lemma AtomicTrack(st: State, t: R.Table, id: RequestId, c: Client, spies: Slice)
    requires Shows(st, t) && Fresh(st, id)
    ensures var steps := [Arm(id, c, spies)] + ([Insert(|st.issued|)] + []);
            Legal(st, steps) && Shows(Exec(st, steps), R.Track(t, id, c, spies))
  {
    var k := |st.issued|;
    var s1 := Apply(st, Arm(id, c, spies));
    Unrolled(s1, Insert(k), []);
    Unrolled(st, Arm(id, c, spies), [Insert(k)] + []);
  }

  /** The sections of a reply handler that is not interleaved: it stops where it finds no entry. */
  function ReplySections(st: State, id: RequestId): seq<Step> {
    var w := |st.workers|;
    [LookReply(id)] + if id in st.pending then [Delete(w)] + ([Stop(w)] + ([Send(w)] + [])) else []
  }

  lemma SettlesFound(st: State, t: R.Table, id: RequestId)
    requires Shows(st, t) && id in t.pending
    ensures Legal(st, ReplySections(st, id))
    ensures var st' := Exec(st, ReplySections(st, id));
            var to := t.pending[id].sender;
            && Shows(st', R.Settle(t, id))
            && st'.trace == st.trace + [Looked(id)] + [Deleted(id)] + [Answered(id, to)]
            && R.Settle(t, id).answers == t.answers + [R.Final(t.pending[id], id, to, R.Replied)]
  {
    var w := |st.workers|;
    var s1 := Apply(st, LookReply(id));
    var s2 := Apply(s1, Delete(w));
    var s3 := Apply(s2, Stop(w));
    Unrolled(s3, Send(w), []);
    Unrolled(s2, Stop(w), [Send(w)] + []);
    Unrolled(s1, Delete(w), [Stop(w)] + ([Send(w)] + []));
    Unrolled(st, LookReply(id), [Delete(w)] + ([Stop(w)] + ([Send(w)] + [])));
  }

  /**
   * A reply handler that is not interleaved does what `Requests.Settle` does, to
   * the table and in the answers it sends: one if it finds the entry, else none.
   */
  lemma AtomicSettle(st: State, t: R.Table, id: RequestId)
    requires Shows(st, t)
    ensures Legal(st, ReplySections(st, id))
    ensures var st' := Exec(st, ReplySections(st, id));
            && Shows(st', R.Settle(t, id))
            && (id in t.pending ==>
                  var to := t.pending[id].sender;
                  && st'.trace == st.trace + [Looked(id)] + [Deleted(id)] + [Answered(id, to)]
                  && R.Settle(t, id).answers == t.answers + [R.Final(t.pending[id], id, to, R.Replied)])
            && (id !in t.pending ==> st' == st && R.Settle(t, id) == t)
  {
    if id in t.pending {
      SettlesFound(st, t, id);
    } else {
      Unrolled(st, LookReply(id), []);
    }
  }

  /** The sections of a timer's closure that is not interleaved. */
  function TimeoutSections(st: State, k: R.Timer): seq<Step> {
    var w := |st.workers|;
    [LookTimer(k)] + if k in st.armed && st.armed[k].id in st.pending then [Delete(w)] + ([Send(w)] + []) else []
  }

  lemma ExpiresFound(st: State, t: R.Table, k: R.Timer)
    requires Shows(st, t) && k in t.armed && t.armed[k].id in t.pending
    ensures Legal(st, TimeoutSections(st, k))
    ensures var st' := Exec(st, TimeoutSections(st, k));
            var id, to := t.armed[k].id, t.armed[k].client;
            && Shows(st', R.Expire(t, k))
            && st'.trace == st.trace + [Looked(id)] + [Deleted(id)] + [Answered(id, to)]
            && R.Expire(t, k).answers == t.answers + [R.Final(t.pending[id], id, to, R.TimedOut)]
  {
    var w := |st.workers|;
    var s1 := Apply(st, LookTimer(k));
    var s2 := Apply(s1, Delete(w));
    Unrolled(s2, Send(w), []);
    Unrolled(s1, Delete(w), [Send(w)] + []);
    Unrolled(st, LookTimer(k), [Delete(w)] + ([Send(w)] + []));
  }

  /**
   * A timer's closure that is not interleaved does what `Requests.Expire` does:
   * it answers the client it captured if it finds an entry under its id, and
   * otherwise only the timer is gone.
   */
  lemma AtomicExpire(st: State, t: R.Table, k: R.Timer)
    requires Shows(st, t) && k in t.armed
    ensures Legal(st, TimeoutSections(st, k))
    ensures var st' := Exec(st, TimeoutSections(st, k));
            var id, to := t.armed[k].id, t.armed[k].client;
            && Shows(st', R.Expire(t, k))
            && (id in t.pending ==>
                  && st'.trace == st.trace + [Looked(id)] + [Deleted(id)] + [Answered(id, to)]
                  && R.Expire(t, k).answers == t.answers + [R.Final(t.pending[id], id, to, R.TimedOut)])
            && (id !in t.pending ==>
                  && st' == st.(armed := st.armed - {k}, trace := st.trace + [Missed(k)])
                  && R.Expire(t, k) == t.(armed := t.armed - {k}))
  {
    if t.armed[k].id in t.pending {
      ExpiresFound(st, t, k);
    } else {
      Unrolled(st, LookTimer(k), []);
    }
  }
}
