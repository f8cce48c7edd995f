/**
 * The client library: request ids and the channels in flight, spy handlers and
 * the requests that wait for their replies, and the list of subscribers.
 */
module ClientLib {
  import opened Seqs
  import opened Objects
  import opened Glob
  import opened Options

  /** Ids are uint64 and wrap around. */
  const ID_SPACE: nat := 0x1_0000_0000_0000_0000

  /** A user's callback, known by its identity. */
  type Handler = nat

  datatype Subscriber = Subscriber(pattern: string, handle: Handler)

  // ------------------------------------------------------------ request ids

  /** `atomic.AddUint64(&nonce, 1)` */
  function NextId(nonce: nat): (id: nat)
    ensures id < ID_SPACE
  {
    (nonce + 1) % ID_SPACE
  }

  /** The id of request number `i`, counted from 1, of a client whose nonce began as `start`. */
  function IdOf(start: nat, i: nat): nat { (start + i) % ID_SPACE }

  function IdsUpTo(start: nat, n: nat): set<nat> {
    set i | 1 <= i <= n :: IdOf(start, i)
  }

  /** The part of a client that requests touch: its nonce, the ids in flight, and whether it has panicked. */
  datatype Asking = Asking(nonce: nat, ids: set<nat>, panicked: bool)

  function Ask(a: Asking): Asking {
    if a.panicked then a
    else
      var id := NextId(a.nonce);
      if id in a.ids then Asking(id, a.ids, true) else Asking(id, a.ids + {id}, false)
  }

  function AskTimes(a: Asking, n: nat): Asking {
    if n == 0 then a else Ask(AskTimes(a, n - 1))
  }

  /** Fewer than 2^64 requests apart, ids differ; exactly 2^64 apart, they are the same. */
  lemma IdsDiffer(start: nat, i: nat, j: nat)
    requires i < j <= i + ID_SPACE
    ensures IdOf(start, i) == IdOf(start, j) <==> j == i + ID_SPACE
  {
  }

  lemma FirstRepeat(start: nat, n: nat)
    requires n <= ID_SPACE
    ensures IdOf(start, n + 1) in IdsUpTo(start, n) <==> n == ID_SPACE
  {
    if n == ID_SPACE {
      IdsDiffer(start, 1, n + 1);
    } else {
      forall i | 1 <= i <= n
        ensures IdOf(start, i) != IdOf(start, n + 1)
      {
        IdsDiffer(start, i, n + 1);
      }
    }
  }

  lemma OneMore(start: nat, n: nat)
    ensures IdsUpTo(start, n + 1) == IdsUpTo(start, n) + {IdOf(start, n + 1)}
  {
  }

  lemma NextIs(start: nat, n: nat)
    ensures NextId(IdOf(start, n)) == IdOf(start, n + 1)
  {
  }

  /** The channels in flight, with how many replies each has been offered: one more channel. */
  function Installing(flight: map<RequestId, nat>, id: RequestId): map<RequestId, nat> {
    flight[id := 0]
  }

  /** ... and one more offer, if there is a channel for it. */
  function Offering(flight: map<RequestId, nat>, id: RequestId): map<RequestId, nat> {
    if id in flight then flight[id := flight[id] + 1] else flight
  }

  function Fresh(start: nat): Asking { Asking(start, {}, false) }

  /**
   * Whatever the nonce a client starts from, its requests up to number 2^64 get
   * pairwise distinct ids and those are exactly the keys in flight, for none is
   * ever deleted.
   */
  lemma {:induction false} FirstIdsAreDistinct(start: nat, n: nat)
    requires start < ID_SPACE && n <= ID_SPACE
    ensures AskTimes(Fresh(start), n) == Asking(IdOf(start, n), IdsUpTo(start, n), false)
    ensures |IdsUpTo(start, n)| == n
  {
    if n == 0 {
      assert IdsUpTo(start, 0) == {};
    } else {
      FirstIdsAreDistinct(start, n - 1);
      NextIs(start, n - 1);
      FirstRepeat(start, n - 1);
      OneMore(start, n - 1);
    }
  }

  lemma {:induction false} PanicLasts(a: Asking, n: nat, m: nat)
    requires m <= n && AskTimes(a, m).panicked
    ensures AskTimes(a, n).panicked
  {
    if n > m {
      PanicLasts(a, n - 1, m);
    }
  }

  lemma PanicsThen(start: nat, all: nat)
    requires start < ID_SPACE && all == ID_SPACE
    ensures AskTimes(Fresh(start), all + 1).panicked
  {
    FirstIdsAreDistinct(start, all);
    NextIs(start, all);
    FirstRepeat(start, all);
  }

  /** The panic on a duplicate id comes with request number 2^64 + 1, and not before. */
  lemma PanicsExactlyAfterAll(start: nat, n: nat)
    requires start < ID_SPACE
    ensures AskTimes(Fresh(start), n).panicked <==> n > 0x1_0000_0000_0000_0000
  {
    if n <= ID_SPACE {
      FirstIdsAreDistinct(start, n);
    } else {
      var all: nat :| all == ID_SPACE;
      PanicsThen(start, all);
      PanicLasts(Fresh(start), n, all + 1);
    }
  }

  // ------------------------------------------------------------ subscribers

  /** The subscriber at `i` is called for `event`, and its callback asks to be removed. */
  predicate Leaves(subs: seq<Subscriber>, event: string, asks: nat -> bool, i: nat)
    requires i < |subs|
  {
    Match(subs[i].pattern, event) && asks(i)
  }

  /** The subscribers that stay, of the first `n`. */
  function Staying(subs: seq<Subscriber>, event: string, asks: nat -> bool, n: nat): seq<Subscriber>
    requires n <= |subs|
  {
    if n == 0 then []
    else Staying(subs, event, asks, n - 1) + if Leaves(subs, event, asks, n - 1) then [] else [subs[n - 1]]
  }

  /** The positions that are vacated, of the first `n`, last one first. */
  function Leaving(subs: seq<Subscriber>, event: string, asks: nat -> bool, n: nat): (r: seq<nat>)
    requires n <= |subs|
    ensures forall k :: 0 <= k < |r| ==> r[k] < n
  {
    if n == 0 then []
    else (if Leaves(subs, event, asks, n - 1) then [n - 1] else []) + Leaving(subs, event, asks, n - 1)
  }

  /** The callbacks that are run, of the first `n`, in order. */
  function Called(subs: seq<Subscriber>, event: string, n: nat): seq<Handler>
    requires n <= |subs|
  {
    if n == 0 then []
    else Called(subs, event, n - 1) + if Match(subs[n - 1].pattern, event) then [subs[n - 1].handle] else []
  }

  ghost predicate Descending(r: seq<nat>) {
    forall i, j :: 0 <= i < j < |r| ==> r[i] > r[j]
  }

  lemma {:induction false} LeavingDescends(subs: seq<Subscriber>, event: string, asks: nat -> bool, n: nat)
    requires n <= |subs|
    ensures Descending(Leaving(subs, event, asks, n))
    ensures |Leaving(subs, event, asks, n)| + |Staying(subs, event, asks, n)| == n
  {
    if n > 0 {
      LeavingDescends(subs, event, asks, n - 1);
    }
  }

  /** The callbacks that are run: by position, those of the subscribers whose pattern matches, in order. */
  lemma {:induction false} CalledAre(subs: seq<Subscriber>, event: string, n: nat) returns (at: seq<nat>)
    requires n <= |subs|
    ensures Ascending(at) && |Called(subs, event, n)| == |at|
    ensures forall k :: 0 <= k < |at| ==>
              at[k] < n && Match(subs[at[k]].pattern, event) && Called(subs, event, n)[k] == subs[at[k]].handle
    ensures forall i: nat :: i < n && Match(subs[i].pattern, event) ==> i in at
  {
    at := [];
    if n > 0 {
      at := CalledAre(subs, event, n - 1);
      if Match(subs[n - 1].pattern, event) {
        at := at + [n - 1];
      }
    }
  }

  /** Those that stay, in order: of the first `n`, all but the ones that were called and asked to be removed. */
  lemma {:induction false} StayingAre(subs: seq<Subscriber>, event: string, asks: nat -> bool, n: nat) returns (at: seq<nat>)
    requires n <= |subs|
    ensures Ascending(at) && |Staying(subs, event, asks, n)| == |at|
    ensures forall k :: 0 <= k < |at| ==>
              at[k] < n && !(Match(subs[at[k]].pattern, event) && asks(at[k])) && Staying(subs, event, asks, n)[k] == subs[at[k]]
    ensures forall i: nat :: i < n && !(Match(subs[i].pattern, event) && asks(i)) ==> i in at
  {
    at := [];
    if n > 0 {
      at := StayingAre(subs, event, asks, n - 1);
      if !(Match(subs[n - 1].pattern, event) && asks(n - 1)) {
        at := at + [n - 1];
      }
    }
  }

  /** What swap-removal leaves after the positions `r` have been vacated in turn. */
  function Vacate(subs: seq<Subscriber>, r: seq<nat>): seq<Subscriber>
    requires Descending(r) && (r != [] ==> r[0] < |subs|)
    decreases |r|
  {
    if r == [] then subs else Vacate(SwapRemove(subs, r[0]), r[1..])
  }

  lemma PrefixShrinks(a: seq<Subscriber>, b: seq<Subscriber>, n: nat)
    requires 0 < n <= |a| && n <= |b| && a[..n] == b[..n]
    ensures a[n - 1] == b[n - 1] && a[..n - 1] == b[..n - 1]
  {
    assert a[..n][n - 1] == b[..n][n - 1];
    assert a[..n - 1] == a[..n][..n - 1] && b[..n - 1] == b[..n][..n - 1];
  }

  lemma SwapTail(cur: seq<Subscriber>, i: nat)
    requires i < |cur|
    ensures SwapRemove(cur, i)[..i] == cur[..i]
    ensures multiset(SwapRemove(cur, i)[i..]) == multiset(cur[i + 1..])
  {
    var n := |cur| - 1;
    if i < n {
      assert SwapRemove(cur, i)[i..] == [cur[n]] + cur[i + 1..n];
      assert cur[i + 1..] == cur[i + 1..n] + [cur[n]];
    }
  }

  /** Descending positions stay in bounds, and swap-removal never moves what is still to be removed. */
  lemma {:induction false} VacateLeaves(subs: seq<Subscriber>, cur: seq<Subscriber>, event: string,
          asks: nat -> bool, n: nat)
    requires n <= |subs| && n <= |cur| && cur[..n] == subs[..n]
    requires Descending(Leaving(subs, event, asks, n))
    ensures multiset(Vacate(cur, Leaving(subs, event, asks, n))) == multiset(Staying(subs, event, asks, n)) + multiset(cur[n..])
    decreases n
  {
    if n == 0 {
      assert cur[0..] == cur;
    } else {
      LeavingDescends(subs, event, asks, n - 1);
      PrefixShrinks(cur, subs, n);
      if Leaves(subs, event, asks, n - 1) {
        LeaverGoes(subs, cur, event, asks, n);
        SwapTail(cur, n - 1);
        VacateLeaves(subs, SwapRemove(cur, n - 1), event, asks, n - 1);
      } else {
        VacateLeaves(subs, cur, event, asks, n - 1);
        StayerStays(subs, cur, event, asks, n);
      }
    }
  }

  lemma LeaverGoes(subs: seq<Subscriber>, cur: seq<Subscriber>, event: string, asks: nat -> bool, n: nat)
    requires 0 < n <= |subs| && n <= |cur| && Leaves(subs, event, asks, n - 1)
    requires Descending(Leaving(subs, event, asks, n)) && Descending(Leaving(subs, event, asks, n - 1))
    ensures Vacate(cur, Leaving(subs, event, asks, n)) == Vacate(SwapRemove(cur, n - 1), Leaving(subs, event, asks, n - 1))
    ensures Staying(subs, event, asks, n) == Staying(subs, event, asks, n - 1)
  {
    var r := Leaving(subs, event, asks, n);
    assert r[0] == n - 1 && r[1..] == Leaving(subs, event, asks, n - 1);
  }

  lemma StayerStays(subs: seq<Subscriber>, cur: seq<Subscriber>, event: string, asks: nat -> bool, n: nat)
    requires 0 < n <= |subs| && n <= |cur| && !Leaves(subs, event, asks, n - 1) && cur[n - 1] == subs[n - 1]
    ensures Leaving(subs, event, asks, n) == Leaving(subs, event, asks, n - 1)
    ensures multiset(Staying(subs, event, asks, n)) + multiset(cur[n..]) ==
            multiset(Staying(subs, event, asks, n - 1)) + multiset(cur[n - 1..])
  {
    MultisetHead(cur[n - 1..]);
    assert cur[n - 1..][1..] == cur[n..];
  }

  // ------------------------------------------------------------ spy handlers

  type Key = (string, string)

  datatype Record = Record(serial: nat, req: Message, handlers: seq<Handler>)

  /** A spy handler is run on a request and its reply. */
  datatype Call = Call(handler: Handler, req: Message, rep: Message)

  datatype Dispatch = Dispatch(serial: nat, rep: Message)

  /**
   * The spies installed, the requests waiting for their replies, and what was
   * recorded, dispatched and called, oldest first.
   */
  datatype Watch = Watch(
    installed: map<Key, seq<Handler>>,
    waiting: map<RequestId, Record>,
    records: seq<Record>,
    dispatches: seq<Dispatch>,
    calls: seq<Call>)

  const IDLE := Watch(map[], map[], [], [], [])

  datatype Sight = Installs(key: Key, handler: Handler) | SeesRequest(req: Message) | SeesReply(rep: Message)

  predicate Sound(s: Sight) {
    (s.SeesRequest? ==> s.req.Request?) && (s.SeesReply? ==> s.rep.Reply?)
  }

  function CallsOf(r: Record, rep: Message): seq<Call> {
    seq(|r.handlers|, i requires 0 <= i < |r.handlers| => Call(r.handlers[i], r.req, rep))
  }

  function Installed(w: Watch, key: Key): seq<Handler> {
    if key in w.installed then w.installed[key] else []
  }

  function See(w: Watch, s: Sight): Watch
    requires Sound(s)
  {
    match s
    case Installs(key, h) => w.(installed := w.installed[key := Installed(w, key) + [h]])
    case SeesRequest(req) =>
      var key := (req.name, req.ident);
      if key !in w.installed then w
      else
        var r := Record(|w.records|, req, w.installed[key]);
        w.(waiting := w.waiting[req.id := r], records := w.records + [r])
    case SeesReply(rep) =>
      if rep.id !in w.waiting then w
      else
        var r := w.waiting[rep.id];
        w.(waiting := w.waiting - {rep.id},
           dispatches := w.dispatches + [Dispatch(r.serial, rep)],
           calls := w.calls + CallsOf(r, rep))
  }

  function SeeAll(w: Watch, ss: seq<Sight>): Watch
    requires forall s :: s in ss ==> Sound(s)
    decreases |ss|
  {
    if ss == [] then w else SeeAll(See(w, ss[0]), ss[1..])
  }

  /** The calls that a list of dispatches makes, each to the handlers on record. */
  function CallsFor(records: seq<Record>, ds: seq<Dispatch>): seq<Call> {
    if ds == [] then []
    else
      var d := ds[|ds| - 1];
      CallsFor(records, ds[..|ds| - 1]) + if d.serial < |records| then CallsOf(records[d.serial], d.rep) else []
  }

  /** No record is dispatched twice. */
  ghost predicate Once(ds: seq<Dispatch>) {
    forall i, j :: 0 <= i < j < |ds| ==> ds[i].serial != ds[j].serial
  }

  ghost predicate WatchOk(w: Watch) {
    && (forall k :: 0 <= k < |w.records| ==> w.records[k].serial == k && w.records[k].req.Request?)
    && (forall id :: id in w.waiting ==>
          var r := w.waiting[id];
          r.serial < |w.records| && w.records[r.serial] == r && r.req.id == id
          && forall i :: 0 <= i < |w.dispatches| ==> w.dispatches[i].serial != r.serial)
    && (forall i :: 0 <= i < |w.dispatches| ==>
          var d := w.dispatches[i];
          d.serial < |w.records| && d.rep.Reply? && d.rep.id == w.records[d.serial].req.id)
    && Once(w.dispatches)
    && w.calls == CallsFor(w.records, w.dispatches)
  }

  lemma {:induction false} RecordsGrow(records: seq<Record>, r: Record, ds: seq<Dispatch>)
    requires forall i :: 0 <= i < |ds| ==> ds[i].serial < |records|
    ensures CallsFor(records + [r], ds) == CallsFor(records, ds)
  {
    if ds != [] {
      RecordsGrow(records, r, ds[..|ds| - 1]);
    }
  }

  lemma RequestKeeps(w: Watch, req: Message)
    requires WatchOk(w) && req.Request? && (req.name, req.ident) in w.installed
    ensures WatchOk(See(w, SeesRequest(req)))
  {
    RecordsGrow(w.records, Record(|w.records|, req, w.installed[(req.name, req.ident)]), w.dispatches);
  }

  lemma OnceMore(ds: seq<Dispatch>, d: Dispatch)
    requires Once(ds) && forall i :: 0 <= i < |ds| ==> ds[i].serial != d.serial
    ensures Once(ds + [d])
  {
  }

  lemma ReplyKeeps(w: Watch, rep: Message)
    requires WatchOk(w) && rep.Reply? && rep.id in w.waiting
    ensures WatchOk(See(w, SeesReply(rep)))
  {
    var d := Dispatch(w.waiting[rep.id].serial, rep);
    OnceMore(w.dispatches, d);
    assert (w.dispatches + [d])[..|w.dispatches|] == w.dispatches;
  }

  lemma SeeKeeps(w: Watch, s: Sight)
    requires WatchOk(w) && Sound(s)
    ensures WatchOk(See(w, s))
  {
    match s
    case Installs(key, h) =>
    case SeesRequest(req) =>
      if (req.name, req.ident) in w.installed {
        RequestKeeps(w, req);
      }
    case SeesReply(rep) =>
      if rep.id in w.waiting {
        ReplyKeeps(w, rep);
      }
  }

  lemma {:induction false} SeeAllKeeps(w: Watch, ss: seq<Sight>)
    requires WatchOk(w) && forall s :: s in ss ==> Sound(s)
    ensures WatchOk(SeeAll(w, ss))
    decreases |ss|
  {
    if ss != [] {
      SeeKeeps(w, ss[0]);
      SeeAllKeeps(See(w, ss[0]), ss[1..]);
    }
  }

  predicate Pairs(req: Message, rep: Message) {
    req.Request? && rep.Reply? && req.id == rep.id
  }

  lemma {:induction false} CallsPair(records: seq<Record>, ds: seq<Dispatch>, c: Call)
    requires forall i :: 0 <= i < |ds| ==> ds[i].serial < |records| && Pairs(records[ds[i].serial].req, ds[i].rep)
    requires c in CallsFor(records, ds)
    ensures Pairs(c.req, c.rep)
  {
    var d := ds[|ds| - 1];
    if c !in CallsOf(records[d.serial], d.rep) {
      CallsPair(records, ds[..|ds| - 1], c);
    }
  }

  /**
   * Over every sequence of spy installations and received messages: a handler is
   * run on a request and a reply of one id; each recorded request is dispatched
   * at most once; and the calls made are, dispatch by dispatch, those to the
   * handlers that were installed when the request was recorded.
   */
  lemma SpiesArePaired(ss: seq<Sight>)
    requires forall s :: s in ss ==> Sound(s)
    ensures var w := SeeAll(IDLE, ss);
            && (forall c :: c in w.calls ==> Pairs(c.req, c.rep))
            && Once(w.dispatches)
            && w.calls == CallsFor(w.records, w.dispatches)
  {
    SeeAllKeeps(IDLE, ss);
    var w := SeeAll(IDLE, ss);
    forall c | c in w.calls
      ensures Pairs(c.req, c.rep)
    {
      CallsPair(w.records, w.dispatches, c);
    }
  }

  /** The record was made at the `n`th event, with the handlers installed by then. */
  ghost predicate MadeAt(ss: seq<Sight>, r: Record, n: nat)
    requires forall s :: s in ss ==> Sound(s)
  {
    && n < |ss| && ss[n].SeesRequest? && r.req == ss[n].req && r.req.Request?
    && r.handlers == Installed(SeeAll(IDLE, ss[..n]), (r.req.name, r.req.ident))
  }

  /** ... where the handlers on record are those installed at that moment. */
  lemma {:induction false} RecordsAreSnapshots(ss: seq<Sight>, k: nat)
    requires forall s :: s in ss ==> Sound(s)
    requires k < |SeeAll(IDLE, ss).records|
    ensures exists n: nat :: MadeAt(ss, SeeAll(IDLE, ss).records[k], n)
    decreases |ss|
  {
    var m := |ss| - 1;
    SeeSnoc(IDLE, ss);
    var before := SeeAll(IDLE, ss[..m]);
    var r := SeeAll(IDLE, ss).records[k];
    if k < |before.records| {
      RecordsAreSnapshots(ss[..m], k);
      assert before.records[k] == r;
      var n: nat :| MadeAt(ss[..m], r, n);
      assert ss[..m][..n] == ss[..n];
      assert MadeAt(ss, r, n);
    } else {
      assert ss[m] in ss && Sound(ss[m]);
      assert MadeAt(ss, r, m);
    }
  }

  lemma {:induction false} SeeSnoc(w: Watch, ss: seq<Sight>)
    requires ss != [] && forall s :: s in ss ==> Sound(s)
    ensures SeeAll(w, ss) == See(SeeAll(w, ss[..|ss| - 1]), ss[|ss| - 1])
    decreases |ss|
  {
    if |ss| > 1 {
      SeeSnoc(See(w, ss[0]), ss[1..]);
      assert ss[1..][..|ss| - 2] == ss[..|ss| - 1][1..];
    }
  }

  // What is called, by position in the sequence of events.

  lemma SeeOne(ss: seq<Sight>, m: nat)
    requires m < |ss| && forall s :: s in ss ==> Sound(s)
    ensures (forall s :: s in ss[..m] ==> Sound(s)) && (forall s :: s in ss[..m + 1] ==> Sound(s)) && Sound(ss[m])
    ensures SeeAll(IDLE, ss[..m + 1]) == See(SeeAll(IDLE, ss[..m]), ss[m])
  {
    assert ss[..m + 1][..m] == ss[..m] && ss[m] in ss;
    SeeSnoc(IDLE, ss[..m + 1]);
  }

  predicate InstallsFor(s: Sight, key: Key) { s.Installs? && s.key == key }

  lemma InstallStep(ss: seq<Sight>, key: Key, m: nat)
    requires m < |ss| && forall s :: s in ss ==> Sound(s)
    ensures var w, w' := SeeAll(IDLE, ss[..m]), SeeAll(IDLE, ss[..m + 1]);
            && Installed(w', key) == Installed(w, key) + (if InstallsFor(ss[m], key) then [ss[m].handler] else [])
            && (key in w'.installed <==> key in w.installed || InstallsFor(ss[m], key))
  {
    SeeOne(ss, m);
  }

  /** The handlers installed for a key by the first `m` events: one per such event, in order. */
  lemma {:induction false} InstalledAre(ss: seq<Sight>, key: Key, m: nat) returns (at: seq<nat>)
    requires m <= |ss| && forall s :: s in ss ==> Sound(s)
    ensures Ascending(at) && |Installed(SeeAll(IDLE, ss[..m]), key)| == |at|
    ensures forall k :: 0 <= k < |at| ==>
              at[k] < m && InstallsFor(ss[at[k]], key) && Installed(SeeAll(IDLE, ss[..m]), key)[k] == ss[at[k]].handler
    ensures forall i: nat :: i < m && InstallsFor(ss[i], key) ==> i in at
    ensures key in SeeAll(IDLE, ss[..m]).installed <==> at != []
  {
    at := [];
    if m > 0 {
      at := InstalledAre(ss, key, m - 1);
      InstallStep(ss, key, m - 1);
      if InstallsFor(ss[m - 1], key) {
        at := at + [m - 1];
      }
    }
  }

  /** The handlers installed for the request seen at `n`, by then. */
  function HandlersAt(ss: seq<Sight>, n: nat): seq<Handler>
    requires n < |ss| && forall s :: s in ss ==> Sound(s)
  {
    if ss[n].SeesRequest? && ss[n].req.Request? then Installed(SeeAll(IDLE, ss[..n]), (ss[n].req.name, ss[n].req.ident)) else []
  }

  /** At `n` a request of this id is seen for which handlers are installed. */
  ghost predicate Spied(ss: seq<Sight>, n: nat, id: RequestId)
    requires n < |ss| && forall s :: s in ss ==> Sound(s)
  {
    HandlersAt(ss, n) != [] && ss[n].SeesRequest? && ss[n].req.Request? && ss[n].req.id == id
  }

  predicate Answered(s: Sight, id: RequestId) { s.SeesReply? && s.rep.Reply? && s.rep.id == id }

  /** Before event `m`, the spied request seen at `n` is the last of its id, and has had no reply. */
  ghost predicate Awaits(ss: seq<Sight>, n: nat, m: nat, id: RequestId)
    requires m <= |ss| && forall s :: s in ss ==> Sound(s)
  {
    n < m && Spied(ss, n, id) && forall k :: n < k < m ==> !Spied(ss, k, id) && !Answered(ss[k], id)
  }

  /** What is recorded as waiting: the request, and the handlers installed when it was seen. */
  ghost predicate WaitsSince(ss: seq<Sight>, n: nat, m: nat, id: RequestId)
    requires n < m <= |ss| && forall s :: s in ss ==> Sound(s)
  {
    var w := SeeAll(IDLE, ss[..m]);
    ss[n].SeesRequest? && id in w.waiting && w.waiting[id].req == ss[n].req && w.waiting[id].handlers == HandlersAt(ss, n)
  }

  lemma SpiedIs(ss: seq<Sight>, m: nat)
    requires m < |ss| && forall s :: s in ss ==> Sound(s)
    ensures Sound(ss[m])
    ensures ss[m].SeesRequest? ==>
              (HandlersAt(ss, m) != [] <==> (ss[m].req.name, ss[m].req.ident) in SeeAll(IDLE, ss[..m]).installed)
  {
    assert ss[m] in ss;
    if ss[m].SeesRequest? {
      var at := InstalledAre(ss, (ss[m].req.name, ss[m].req.ident), m);
    }
  }

  /** What event `m` does to the requests of an id that wait. */
  lemma WaitingStep(ss: seq<Sight>, m: nat, id: RequestId)
    requires m < |ss| && forall s :: s in ss ==> Sound(s)
    ensures var w, w' := SeeAll(IDLE, ss[..m]), SeeAll(IDLE, ss[..m + 1]);
            if Spied(ss, m, id) then WaitsSince(ss, m, m + 1, id)
            else if Answered(ss[m], id) then id !in w'.waiting
            else (id in w'.waiting <==> id in w.waiting) && (id in w.waiting ==> w'.waiting[id] == w.waiting[id])
  {
    SeeOne(ss, m);
    SpiedIs(ss, m);
  }

  lemma AwaitsStep(ss: seq<Sight>, n: nat, m: nat, id: RequestId)
    requires m < |ss| && forall s :: s in ss ==> Sound(s)
    ensures Awaits(ss, n, m + 1, id) <==>
            if Spied(ss, m, id) then n == m else Awaits(ss, n, m, id) && !Answered(ss[m], id)
  {
  }

  /** A request waits exactly when one was spied that no reply, and no other spied request of the id, has followed. */
  lemma {:induction false} WaitingIs(ss: seq<Sight>, m: nat, id: RequestId)
    requires m <= |ss| && forall s :: s in ss ==> Sound(s)
    ensures id in SeeAll(IDLE, ss[..m]).waiting <==> exists n: nat :: Awaits(ss, n, m, id)
    ensures forall n: nat :: Awaits(ss, n, m, id) ==> WaitsSince(ss, n, m, id)
  {
    if m > 0 {
      WaitingIs(ss, m - 1, id);
      WaitingStep(ss, m - 1, id);
      forall n: nat
        ensures Awaits(ss, n, m, id) <==>
                if Spied(ss, m - 1, id) then n == m - 1 else Awaits(ss, n, m - 1, id) && !Answered(ss[m - 1], id)
      {
        AwaitsStep(ss, n, m - 1, id);
      }
      if Spied(ss, m - 1, id) {
        assert Awaits(ss, m - 1, m, id);
      } else if id in SeeAll(IDLE, ss[..m]).waiting {
        var n: nat :| Awaits(ss, n, m - 1, id);
        assert Awaits(ss, n, m, id);
      }
    }
  }

  /** The calls made by the first `m` events. */
  function Calls(ss: seq<Sight>, m: nat): seq<Call>
    requires m <= |ss| && forall s :: s in ss ==> Sound(s)
  {
    SeeAll(IDLE, ss[..m]).calls
  }

  lemma WaitsFrom(ss: seq<Sight>, n: nat, m: nat, id: RequestId)
    requires m <= |ss| && (forall s :: s in ss ==> Sound(s)) && Awaits(ss, n, m, id)
    ensures WaitsSince(ss, n, m, id)
  {
    WaitingIs(ss, m, id);
  }

  lemma ReplyStep(w: Watch, rep: Message)
    requires rep.Reply? && rep.id in w.waiting
    ensures var r, w' := w.waiting[rep.id], See(w, SeesReply(rep));
            && |w'.calls| == |w.calls| + |r.handlers| && w.calls <= w'.calls
            && forall i :: 0 <= i < |r.handlers| ==> w'.calls[|w.calls| + i] == Call(r.handlers[i], r.req, rep)
  {
  }

  /** Event `m` made one call per handler, in order, on the request and the reply. */
  ghost predicate CallsEach(ss: seq<Sight>, m: nat, handlers: seq<Handler>, req: Message, rep: Message)
    requires m < |ss| && forall s :: s in ss ==> Sound(s)
  {
    && |Calls(ss, m + 1)| == |Calls(ss, m)| + |handlers| && Calls(ss, m) <= Calls(ss, m + 1)
    && forall i :: 0 <= i < |handlers| ==> Calls(ss, m + 1)[|Calls(ss, m)| + i] == Call(handlers[i], req, rep)
  }

  lemma WaiterIsCalled(ss: seq<Sight>, n: nat, m: nat, id: RequestId)
    requires n < m < |ss| && (forall s :: s in ss ==> Sound(s)) && Answered(ss[m], id) && WaitsSince(ss, n, m, id)
    ensures CallsEach(ss, m, HandlersAt(ss, n), ss[n].req, ss[m].rep)
  {
    SeeOne(ss, m);
    ReplyStep(SeeAll(IDLE, ss[..m]), ss[m].rep);
  }

  /**
   * A reply to a spied request runs each handler that was installed for it when
   * the request was seen, in order, on that request and that reply.
   */
  lemma ReplyCallsSpies(ss: seq<Sight>, n: nat, m: nat, id: RequestId)
    requires m < |ss| && (forall s :: s in ss ==> Sound(s)) && Answered(ss[m], id) && Awaits(ss, n, m, id)
    ensures CallsEach(ss, m, HandlersAt(ss, n), ss[n].req, ss[m].rep)
  {
    WaitsFrom(ss, n, m, id);
    WaiterIsCalled(ss, n, m, id);
  }

  /** Nothing else runs a handler: no other event, and no reply for which no spied request is waiting. */
  lemma NothingElseCalls(ss: seq<Sight>, m: nat)
    requires m < |ss| && forall s :: s in ss ==> Sound(s)
    requires forall n: nat, id :: Answered(ss[m], id) ==> !Awaits(ss, n, m, id)
    ensures Calls(ss, m + 1) == Calls(ss, m)
  {
    SeeOne(ss, m);
    if ss[m].SeesReply? {
      WaitingIs(ss, m, ss[m].rep.id);
      assert Answered(ss[m], ss[m].rep.id);
    }
  }

  // ------------------------------------------------------------- the object

  /** A Go slice of handlers. */
  datatype HandlerSlice = HandlerSlice(arr: array<Handler>, len: nat)

  datatype PendingRequest = PendingRequest(req: Message, spies: HandlerSlice)

  datatype Fault = NoSuchName | NoSuchIdentification | NoMatchingRequest

  class Library {
    var nonce: nat                                     // currentRequestId
    var flight: map<RequestId, nat>                    // requestsInFlight: replies offered on each channel
    var panicked: bool
    var services: set<Key>
    var subscribers: seq<Subscriber>
    var spies: map<Key, HandlerSlice>
    var pending: map<RequestId, PendingRequest>        // spyRequestsPending
    var sent: seq<Message>
    ghost var watch: Watch

    ghost predicate SliceIs(sl: HandlerSlice, s: seq<Handler>)
      reads sl.arr
    {
      sl.len == |s| && sl.len <= sl.arr.Length && forall i :: 0 <= i < |s| ==> sl.arr[i] == s[i]
    }

    /**
     * The slices hold what `watch` says. Recorded slices may share their arrays
     * with installed ones, but never reach beyond them.
     */
    ghost predicate Valid()
      reads this`spies, this`pending, this`watch
      reads (set k | k in spies :: spies[k].arr), (set id | id in pending :: pending[id].spies.arr)
    {
      && watch.installed.Keys == spies.Keys && watch.waiting.Keys == pending.Keys
      && (forall k :: k in spies ==> SliceIs(spies[k], watch.installed[k]))
      && (forall id :: id in pending ==>
            SliceIs(pending[id].spies, watch.waiting[id].handlers) && pending[id].req == watch.waiting[id].req)
      && (forall j, k :: j in spies && k in spies && j != k ==> spies[j].arr != spies[k].arr)
      && (forall k, id :: k in spies && id in pending && pending[id].spies.arr == spies[k].arr ==>
            pending[id].spies.len <= spies[k].len)
    }

    constructor (start: nat)
      requires start < ID_SPACE
      ensures Valid() && watch == IDLE && Asks() == Fresh(start)
      ensures subscribers == [] && sent == [] && services == {}
    {
      nonce, flight, panicked, services, subscribers := start, map[], false, {}, [];
      spies, pending, sent, watch := map[], map[], [], IDLE;
    }

    ghost function Asks(): Asking
      reads this`nonce, this`flight, this`panicked
    {
      Asking(nonce, flight.Keys, panicked)
    }

    /** `sendRequestWaitForReply`, up to the wait: the channel is installed before the request is written. */
    method SendRequest(name: string, ident: string, call: string, data: Bytes)
      requires !panicked
      modifies this`nonce, this`flight, this`panicked, this`sent
      ensures Asks() == Ask(old(Asks())) && nonce == (old(nonce) + 1) % 0x1_0000_0000_0000_0000
      ensures !panicked ==> nonce !in old(flight) && flight == Installing(old(flight), nonce)
      ensures sent == old(sent) + if panicked then [] else [Request(nonce, name, ident, call, data)]
    {
      nonce := NextId(nonce);
      if nonce in flight {
        panicked := true;
        return;
      }
      flight := flight[nonce := 0];
      sent := sent + [Request(nonce, name, ident, call, data)];
    }

    /** `append`, in place when the array has room, else in a new array with `spare` more places than needed. */
    method Append(sl: HandlerSlice, ghost s: seq<Handler>, h: Handler, spare: nat) returns (r: HandlerSlice)
      requires SliceIs(sl, s)
      modifies sl.arr
      ensures SliceIs(r, s + [h]) && r.len == sl.len + 1
      ensures fresh(r.arr) || r.arr == sl.arr
      ensures forall i :: 0 <= i < sl.len ==> sl.arr[i] == old(sl.arr[i])
    {
      if sl.len < sl.arr.Length {
        sl.arr[sl.len] := h;
        r := HandlerSlice(sl.arr, sl.len + 1);
      } else {
        var list := sl.arr[..sl.len];
        var room := new Handler[sl.len + 1 + spare](i => if 0 <= i < |list| then list[i] else h);
        r := HandlerSlice(room, sl.len + 1);
      }
    }

    /** The slice of a key after one more handler: in place of the old one, or a first one. */
    method ExtendSlice(key: Key, h: Handler, spare: nat) returns (sl: HandlerSlice)
      requires Valid()
      modifies set k | k in spies :: spies[k].arr
      ensures SliceIs(sl, Installed(watch, key) + [h])
      ensures fresh(sl.arr) || (key in spies && sl.arr == spies[key].arr && sl.len == spies[key].len + 1)
      ensures Valid()
    {
      if key in spies {
        sl := Append(spies[key], watch.installed[key], h, spare);
      } else {
        var none := new Handler[0];
        sl := Append(HandlerSlice(none, 0), [], h, spare);
      }
    }

    /** The local part of `Spy`. */
    method InstallSpy(name: string, ident: string, h: Handler, spare: nat)
      requires Valid()
      modifies this`spies, this`watch, set k | k in spies :: spies[k].arr
      ensures watch == See(old(watch), Installs((name, ident), h))
      ensures Valid()
    {
      var key := (name, ident);
      var sl := ExtendSlice(key, h, spare);
      spies := spies[key := sl];
      watch := See(watch, Installs(key, h));
    }

    /** Keep a request that has spies until its reply comes. */
    method RecordRequest(req: Message) returns (hasSpied: bool)
      requires Valid() && req.Request?
      modifies this`pending, this`watch
      ensures Valid() && watch == See(old(watch), SeesRequest(req)) && hasSpied == ((req.name, req.ident) in spies)
    {
      var key := (req.name, req.ident);
      hasSpied := key in spies;
      if hasSpied {
        pending := pending[req.id := PendingRequest(req, spies[key])];
      }
      watch := See(watch, SeesRequest(req));
    }

    method ServeRequest(req: Message, served: Answer, hasSpied: bool) returns (err: Option<Fault>)
      requires req.Request?
      modifies this`sent
      ensures var key := (req.name, req.ident);
              && sent == old(sent) + (if key in services then [Reply(req.id, served)] else [])
              && (err == None <==> key in services || hasSpied)
              && (err == Some(NoSuchName) <==> !hasSpied && forall k :: k in services ==> k.0 != req.name)
    {
      var key := (req.name, req.ident);
      if !exists k :: k in services && k.0 == req.name {
        return if hasSpied then None else Some(NoSuchName);
      }
      if key !in services {
        return if hasSpied then None else Some(NoSuchIdentification);
      }
      sent := sent + [Reply(req.id, served)];
      return None;
    }

    /** A spied request is recorded; a request for a local service is served, with any answer. */
    method HandleRequest(req: Message, served: Answer) returns (err: Option<Fault>)
      requires Valid() && req.Request?
      modifies this`pending, this`watch, this`sent
      ensures Valid() && watch == See(old(watch), SeesRequest(req))
      ensures var key := (req.name, req.ident);
              && sent == old(sent) + (if key in services then [Reply(req.id, served)] else [])
              && (err == None <==> key in services || key in spies)
              && (err == Some(NoSuchName) <==> key !in spies && forall k :: k in services ==> k.0 != req.name)
    {
      var hasSpied := RecordRequest(req);
      err := ServeRequest(req, served, hasSpied);
    }

    /** Run the handlers of a recorded request, in order. */
    method Dispatch(p: PendingRequest, rep: Message, ghost r: Record) returns (calls: seq<Call>)
      requires SliceIs(p.spies, r.handlers) && p.req == r.req
      ensures calls == CallsOf(r, rep)
    {
      calls := [];
      for i := 0 to p.spies.len
        invariant |calls| == i
        invariant forall j :: 0 <= j < i ==> calls[j] == Call(r.handlers[j], r.req, rep)
      {
        calls := calls + [Call(p.spies.arr[i], p.req, rep)];
      }
    }

    /** The spies of a recorded request get it with its reply, and the record goes. */
    method NotifySpies(rep: Message) returns (calls: seq<Call>)
      requires Valid() && rep.Reply?
      modifies this`pending, this`watch
      ensures watch.calls == old(watch).calls + calls
      ensures watch == See(old(watch), SeesReply(rep))
      ensures Valid()
    {
      calls := [];
      if rep.id in pending {
        calls := Dispatch(pending[rep.id], rep, watch.waiting[rep.id]);
        pending := pending - {rep.id};
      }
      watch := See(watch, SeesReply(rep));
    }

    /** Spies first; then the reply is offered on the channel of its id, if there is one. */
    method HandleReply(rep: Message) returns (calls: seq<Call>, err: Option<Fault>)
      requires Valid() && rep.Reply?
      modifies this`pending, this`watch, this`flight
      ensures watch == See(old(watch), SeesReply(rep)) && watch.calls == old(watch).calls + calls
      ensures flight == Offering(old(flight), rep.id)
      ensures err == Some(NoMatchingRequest) <==> rep.id !in old(pending) && rep.id !in old(flight)
      ensures Valid()
    {
      var hasSpied := rep.id in pending;
      calls := NotifySpies(rep);
      if rep.id !in flight {
        return calls, if hasSpied then None else Some(NoMatchingRequest);
      }
      flight := flight[rep.id := flight[rep.id] + 1];
      return calls, None;
    }

    method SubscribeUntil(pattern: string, h: Handler)
      modifies this`subscribers, this`sent
      ensures subscribers == old(subscribers) + [Subscriber(pattern, h)]
      ensures sent == old(sent) + [Subscribe(pattern)]
    {
      subscribers := subscribers + [Subscriber(pattern, h)];
      sent := sent + [Subscribe(pattern)];
    }

    /** First loop of `handlePublish`: run the callbacks that match and note, last one first, who asks to leave. */
    method RunCallbacks(event: string, asks: nat -> bool) returns (toRemove: seq<nat>, called: seq<Handler>)
      ensures toRemove == Leaving(subscribers, event, asks, |subscribers|)
      ensures called == Called(subscribers, event, |subscribers|)
    {
      toRemove, called := [], [];
      for idx := 0 to |subscribers|
        invariant toRemove == Leaving(subscribers, event, asks, idx)
        invariant called == Called(subscribers, event, idx)
      {
        if Match(subscribers[idx].pattern, event) {
          called := called + [subscribers[idx].handle];
          if asks(idx) {
            toRemove := [idx] + toRemove;
          }
        }
      }
    }

    /** Second loop: swap-remove each of the positions in turn. */
    method RemoveAt(toRemove: seq<nat>)
      requires Descending(toRemove) && (toRemove != [] ==> toRemove[0] < |subscribers|)
      modifies this`subscribers
      ensures subscribers == Vacate(old(subscribers), toRemove)
    {
      ghost var goal := Vacate(subscribers, toRemove);
      assert toRemove[0..] == toRemove;
      for k := 0 to |toRemove|
        invariant k < |toRemove| ==> toRemove[k] < |subscribers|
        invariant goal == Vacate(subscribers, toRemove[k..])
      {
        var idx := toRemove[k];
        assert toRemove[k..][1..] == toRemove[k + 1..];
        assert toRemove[k..][0] == idx;
        subscribers := subscribers[idx := subscribers[|subscribers| - 1]];
        subscribers := subscribers[..|subscribers| - 1];
      }
    }

    /**
     * After a publish, the subscribers left are those whose callback was not run
     * or did not ask to be removed, each as often as before.
     */
    method HandlePublish(event: string, asks: nat -> bool) returns (called: seq<Handler>)
      modifies this`subscribers
      ensures multiset(subscribers) == multiset(Staying(old(subscribers), event, asks, |old(subscribers)|))
      ensures called == Called(old(subscribers), event, |old(subscribers)|)
    {
      var toRemove;
      toRemove, called := RunCallbacks(event, asks);
      ghost var subs := subscribers;
      LeavingDescends(subs, event, asks, |subs|);
      VacateLeaves(subs, subs, event, asks, |subs|);
      assert subs[|subs|..] == [];
      RemoveAt(toRemove);
    }
  }
}
