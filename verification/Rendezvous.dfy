/** The P2P rendezvous broker: two streams of one user meet in a room. Every lock section, every channel
    close and every way out of the wait is one step; a run is any interleaving of many streams. */
module Rendezvous {
  import opened Tracker
  import opened Credentials

  type Pid = nat

  datatype Stage =
    | Fresh                 // before the lock section
    | Parked                // waiting for a partner
    | Leaving               // cancelled or timed out, about to take the lock again
    | Relaying(peer: Pid)   // took a waiter, copies in both directions
    | Gone                  // handler returned

  datatype Stream = Stream(user: string, room: string, key: string, stage: Stage)

  /** `closed` counts closes of each waiter's `done` channel; `pairs` maps a stream to the waiter it took,
      `takers` a waiter to the stream that took it last. */
  datatype State = State(waiting: map<string, Pid>, streams: map<Pid, Stream>, closed: map<Pid, nat>,
                         pairs: map<Pid, Pid>, takers: map<Pid, Pid>)

  datatype Event =
    | Arrive(p: Pid, decoded: string, room: string)
    | Enter(p: Pid)
    | SeeDone(p: Pid)
    | GiveUp(p: Pid)     // request context done, or the timer fired
    | Withdraw(p: Pid)
    | HangUp(p: Pid)     // relay over: close the waiter's channel

  const Initial := State(map[], map[], map[], map[], map[])

  function Key(user: string, room: string): string {
    user + ":" + room
  }

  function Closes(s: State, p: Pid): nat {
    if p in s.closed then s.closed[p] else 0
  }

  /** First lock section: take the waiter under `key`, or become it. */
  function Joined(waiting: map<string, Pid>, key: string, self: Pid): (map<string, Pid>, Option<Pid>) {
    if key in waiting then (waiting - {key}, Some(waiting[key])) else (waiting[key := self], None)
  }

  /** Second lock section: remove the own entry, if it is still the own one. */
  function Withdrawn(waiting: map<string, Pid>, key: string, self: Pid): map<string, Pid> {
    if key in waiting && waiting[key] == self then waiting - {key} else waiting
  }

  class P2PBroker {
    var waiting: map<string, Pid>

    constructor ()
      ensures waiting == map[]
    {
      waiting := map[];
    }

    method Join(key: string, self: Pid) returns (peer: Option<Pid>)
      modifies this
      ensures (waiting, peer) == Joined(old(waiting), key, self)
    {
      if key !in waiting {
        waiting := waiting[key := self];
        return None;
      }
      peer := Some(waiting[key]);
      waiting := waiting - {key};
    }

    method Withdraw(key: string, self: Pid)
      modifies this
      ensures waiting == Withdrawn(old(waiting), key, self)
    {
      if key in waiting && waiting[key] == self {
        waiting := waiting - {key};
      }
    }
  }

  predicate Enabled(s: State, e: Event) {
    match e
    case Arrive(p, decoded, room) => p !in s.streams && SplitBasic(decoded).Some?
    case Enter(p) => p in s.streams && s.streams[p].stage == Fresh
    case SeeDone(p) => p in s.streams && s.streams[p].stage == Parked && Closes(s, p) > 0
    case GiveUp(p) => p in s.streams && s.streams[p].stage == Parked
    case Withdraw(p) => p in s.streams && s.streams[p].stage == Leaving
    case HangUp(p) => p in s.streams && s.streams[p].stage.Relaying?
  }

  function Move(s: State, p: Pid, stage: Stage): State
    requires p in s.streams
  {
    s.(streams := s.streams[p := s.streams[p].(stage := stage)])
  }

  function Entered(s: State, p: Pid): State
    requires p in s.streams
  {
    var x := s.streams[p];
    if x.room == "" then Move(s, p, Gone)
    else
      var (waiting, peer) := Joined(s.waiting, x.key, p);
      match peer
      case None => Move(s, p, Parked).(waiting := waiting)
      case Some(q) => Move(s, p, Relaying(q)).(waiting := waiting, pairs := s.pairs[p := q], takers := s.takers[q := p])
  }

  function Next(s: State, e: Event): State
    requires Enabled(s, e)
  {
    match e
    case Arrive(p, decoded, room) =>
      var user := SplitBasic(decoded).value.0;
      s.(streams := s.streams[p := Stream(user, room, Key(user, room), Fresh)])
    case Enter(p) => Entered(s, p)
    case SeeDone(p) => Move(s, p, Gone)
    case GiveUp(p) => Move(s, p, Leaving)
    case Withdraw(p) => Move(s, p, Gone).(waiting := Withdrawn(s.waiting, s.streams[p].key, p))
    case HangUp(p) =>
      var q := s.streams[p].stage.peer;
      Move(s, p, Gone).(closed := s.closed[q := Closes(s, q) + 1])
  }

  ghost predicate IsRun(tr: seq<State>, es: seq<Event>) {
    && |tr| == |es| + 1
    && tr[0] == Initial
    && forall i | 0 <= i < |es| :: Enabled(tr[i], es[i]) && tr[i + 1] == Next(tr[i], es[i])
  }

  predicate Present(st: Stage) {
    st == Parked || st == Leaving
  }

  /** Each waiting entry belongs to a handler that has not exited and that nobody has taken. */
  ghost predicate WaitersLive(s: State) {
    forall k | k in s.waiting ::
      && s.waiting[k] in s.streams
      && Present(s.streams[s.waiting[k]].stage)
      && s.streams[s.waiting[k]].key == k
      && s.waiting[k] !in s.takers
  }

  /** Each stream still in its wait can be found under its key, or has been taken. */
  ghost predicate NoneForgotten(s: State) {
    forall p | p in s.streams && Present(s.streams[p].stage) && p !in s.takers ::
      s.streams[p].key in s.waiting && s.waiting[s.streams[p].key] == p
  }

  ghost predicate PairOk(s: State, p: Pid)
    requires p in s.pairs
  {
    var q := s.pairs[p];
    && p in s.streams && q in s.streams && q !in s.pairs
    && s.streams[p].key == s.streams[q].key
    && (s.streams[p].stage == Relaying(q) || s.streams[p].stage == Gone)
    && (Present(s.streams[q].stage) || s.streams[q].stage == Gone)
    && Closes(s, q) == if s.streams[p].stage == Gone then 1 else 0
  }

  /** Each map undoes the other. */
  ghost predicate Mutual(pairs: map<Pid, Pid>, takers: map<Pid, Pid>) {
    && (forall p | p in pairs :: pairs[p] in takers && takers[pairs[p]] == p)
    && (forall q | q in takers :: takers[q] in pairs && pairs[takers[q]] == q)
  }

  lemma MutualMore(pairs: map<Pid, Pid>, takers: map<Pid, Pid>, p: Pid, q: Pid)
    requires Mutual(pairs, takers) && p !in pairs && q !in takers
    ensures Mutual(pairs[p := q], takers[q := p])
  {
  }

  ghost predicate PairsOk(s: State) {
    && (forall p | p in s.pairs :: PairOk(s, p))
    && Mutual(s.pairs, s.takers)
    && (forall p | p in s.streams && s.streams[p].stage.Relaying? :: p in s.pairs && s.pairs[p] == s.streams[p].stage.peer)
    && (forall q: Pid | q !in s.takers :: Closes(s, q) == 0)
  }

  ghost predicate KeysOk(s: State) {
    forall p | p in s.streams :: ':' !in s.streams[p].user && s.streams[p].key == Key(s.streams[p].user, s.streams[p].room)
  }

  ghost predicate Safe(s: State) {
    WaitersLive(s) && NoneForgotten(s) && PairsOk(s)
  }

  /** A stream that has not entered yet is in nobody's books. */
  lemma FreshUnknown(s: State, p: Pid)
    requires Safe(s) && Enabled(s, Enter(p))
    ensures p !in s.pairs && p !in s.takers && forall k | k in s.waiting :: s.waiting[k] != p
  {
    assert p in s.pairs ==> PairOk(s, p);
    assert p in s.takers ==> PairOk(s, s.takers[p]);
  }

  lemma ParkWaiters(s: State, p: Pid)
    requires Safe(s) && Enabled(s, Enter(p))
    requires s.streams[p].room == "" || s.streams[p].key !in s.waiting
    ensures WaitersLive(Entered(s, p)) && NoneForgotten(Entered(s, p))
  {
    FreshUnknown(s, p);
  }

  lemma ParkPairs(s: State, p: Pid)
    requires Safe(s) && Enabled(s, Enter(p))
    requires s.streams[p].room == "" || s.streams[p].key !in s.waiting
    ensures PairsOk(Entered(s, p))
  {
    var t := Entered(s, p);
    FreshUnknown(s, p);
    assert t.pairs == s.pairs && t.takers == s.takers && t.closed == s.closed;
    forall r | r in t.pairs ensures PairOk(t, r) { assert PairOk(s, r); }
  }

  lemma ParkSafe(s: State, p: Pid)
    requires Safe(s) && Enabled(s, Enter(p))
    requires s.streams[p].room == "" || s.streams[p].key !in s.waiting
    ensures Safe(Entered(s, p))
  {
    ParkWaiters(s, p);
    ParkPairs(s, p);
  }

  lemma TakeWaiters(s: State, p: Pid)
    requires Safe(s) && Enabled(s, Enter(p))
    requires s.streams[p].room != "" && s.streams[p].key in s.waiting
    ensures WaitersLive(Entered(s, p)) && NoneForgotten(Entered(s, p))
  {
    FreshUnknown(s, p);
    assert Entered(s, p).waiting == s.waiting - {s.streams[p].key};
  }

  lemma TakePair(s: State, p: Pid, r: Pid)
    requires Safe(s) && Enabled(s, Enter(p))
    requires s.streams[p].room != "" && s.streams[p].key in s.waiting && r in Entered(s, p).pairs
    ensures PairOk(Entered(s, p), r)
  {
    var q := s.waiting[s.streams[p].key];
    FreshUnknown(s, p);
    assert q in s.pairs ==> PairOk(s, q);
    assert r in s.pairs ==> PairOk(s, r);
  }

  lemma TakePairs(s: State, p: Pid)
    requires Safe(s) && Enabled(s, Enter(p))
    requires s.streams[p].room != "" && s.streams[p].key in s.waiting
    ensures PairsOk(Entered(s, p))
  {
    var t := Entered(s, p);
    FreshUnknown(s, p);
    forall r | r in t.pairs ensures PairOk(t, r) {
      TakePair(s, p, r);
    }
    MutualMore(s.pairs, s.takers, p, s.waiting[s.streams[p].key]);
    assert t.closed == s.closed;
  }

  lemma TakeSafe(s: State, p: Pid)
    requires Safe(s) && Enabled(s, Enter(p))
    requires s.streams[p].room != "" && s.streams[p].key in s.waiting
    ensures Safe(Entered(s, p))
  {
    TakeWaiters(s, p);
    TakePairs(s, p);
  }

  /** Moving a waiter along its wait keeps every pairing intact. */
  lemma MovePairs(s: State, p: Pid, st: Stage)
    requires PairsOk(s) && p in s.streams && Present(s.streams[p].stage) && (Present(st) || st == Gone)
    ensures PairsOk(Move(s, p, st))
  {
    var t := Move(s, p, st);
    assert p in s.pairs ==> PairOk(s, p);
    forall r | r in t.pairs ensures PairOk(t, r) { assert PairOk(s, r); }
  }

  lemma MoveWaiters(s: State, p: Pid, st: Stage)
    requires WaitersLive(s) && NoneForgotten(s) && p in s.streams && Present(s.streams[p].stage)
    requires Present(st) || (st == Gone && p in s.takers)
    ensures WaitersLive(Move(s, p, st)) && NoneForgotten(Move(s, p, st))
  {
  }

  lemma ExitSafe(s: State, e: Event)
    requires Safe(s) && Enabled(s, e) && (e.SeeDone? || e.GiveUp?)
    ensures Safe(Next(s, e))
  {
    var st := if e.GiveUp? then Leaving else Gone;
    MovePairs(s, e.p, st);
    MoveWaiters(s, e.p, st);
  }

  lemma WithdrawWaiters(s: State, p: Pid)
    requires WaitersLive(s) && NoneForgotten(s) && Enabled(s, Withdraw(p))
    ensures WaitersLive(Next(s, Withdraw(p))) && NoneForgotten(Next(s, Withdraw(p)))
  {
  }

  /** The pairings do not depend on the waiting map. */
  lemma PairsFrame(s: State, t: State)
    requires PairsOk(s) && t.streams == s.streams && t.closed == s.closed && t.pairs == s.pairs && t.takers == s.takers
    ensures PairsOk(t)
  {
    forall r | r in t.pairs ensures PairOk(t, r) { assert PairOk(s, r); }
    forall q: Pid | q !in t.takers ensures Closes(t, q) == 0 { assert Closes(s, q) == 0; }
  }

  lemma WithdrawSafe(s: State, p: Pid)
    requires Safe(s) && Enabled(s, Withdraw(p))
    ensures Safe(Next(s, Withdraw(p)))
  {
    MovePairs(s, p, Gone);
    PairsFrame(Move(s, p, Gone), Next(s, Withdraw(p)));
    WithdrawWaiters(s, p);
  }

  lemma ArriveSafe(s: State, e: Event)
    requires Safe(s) && Enabled(s, e) && e.Arrive?
    ensures Safe(Next(s, e))
  {
    var t := Next(s, e);
    forall r | r in t.pairs ensures PairOk(t, r) { assert PairOk(s, r); }
  }

  lemma HangUpPair(s: State, e: Event, r: Pid)
    requires Safe(s) && Enabled(s, e) && e.HangUp? && r in s.pairs
    ensures PairOk(Next(s, e), r)
  {
    assert PairOk(s, e.p) && PairOk(s, r);
  }

  lemma HangUpPairs(s: State, e: Event)
    requires Safe(s) && Enabled(s, e) && e.HangUp?
    ensures PairsOk(Next(s, e)) && Closes(s, s.streams[e.p].stage.peer) == 0
  {
    var t := Next(s, e);
    assert PairOk(s, e.p);
    forall r | r in t.pairs ensures PairOk(t, r) { HangUpPair(s, e, r); }
  }

  lemma HangUpWaiters(s: State, e: Event)
    requires WaitersLive(s) && NoneForgotten(s) && Enabled(s, e) && e.HangUp?
    ensures WaitersLive(Next(s, e)) && NoneForgotten(Next(s, e))
  {
  }

  lemma HangUpSafe(s: State, e: Event)
    requires Safe(s) && Enabled(s, e) && e.HangUp?
    ensures Safe(Next(s, e)) && Closes(s, s.streams[e.p].stage.peer) == 0
  {
    HangUpPairs(s, e);
    HangUpWaiters(s, e);
  }

  lemma StepSafe(s: State, e: Event)
    requires Safe(s) && Enabled(s, e)
    ensures Safe(Next(s, e))
  {
    if e.Enter? {
      if s.streams[e.p].room == "" || s.streams[e.p].key !in s.waiting {
        ParkSafe(s, e.p);
      } else {
        TakeSafe(s, e.p);
      }
    } else if e.Arrive? {
      ArriveSafe(s, e);
    } else if e.HangUp? {
      HangUpSafe(s, e);
    } else if e.Withdraw? {
      WithdrawSafe(s, e.p);
    } else {
      ExitSafe(s, e);
    }
  }

  /** Main result: the broker is safe in every state of every run. */
  lemma {:induction false} BrokerSafety(tr: seq<State>, es: seq<Event>, i: nat)
    requires IsRun(tr, es) && i < |tr|
    ensures Safe(tr[i])
  {
    if i > 0 {
      BrokerSafety(tr, es, i - 1);
      StepSafe(tr[i - 1], es[i - 1]);
    }
  }

  /** No `done` channel is ever closed twice, so no handler panics. */
  lemma ClosedAtMostOnce(tr: seq<State>, es: seq<Event>, i: nat, p: Pid)
    requires IsRun(tr, es) && i < |tr|
    ensures Closes(tr[i], p) <= 1
    ensures i < |es| && es[i].HangUp? ==> Closes(tr[i], tr[i].streams[es[i].p].stage.peer) == 0
  {
    BrokerSafety(tr, es, i);
    if p in tr[i].takers {
      assert PairOk(tr[i], tr[i].takers[p]);
    }
    if i < |es| && es[i].HangUp? {
      HangUpSafe(tr[i], es[i]);
    }
  }

  lemma PairsKept(s: State, e: Event, p: Pid)
    requires Safe(s) && Enabled(s, e) && p in s.pairs
    ensures p in Next(s, e).pairs && Next(s, e).pairs[p] == s.pairs[p]
  {
    assert PairOk(s, p);
  }

  lemma PairsKeptAt(tr: seq<State>, es: seq<Event>, i: nat, p: Pid)
    requires IsRun(tr, es) && i < |es| && p in tr[i].pairs
    ensures p in tr[i + 1].pairs && tr[i + 1].pairs[p] == tr[i].pairs[p]
  {
    BrokerSafety(tr, es, i);
    PairsKept(tr[i], es[i], p);
  }

  lemma {:induction false} PairsGrow(tr: seq<State>, es: seq<Event>, i: nat, j: nat, p: Pid)
    requires IsRun(tr, es) && i <= j < |tr| && p in tr[i].pairs
    ensures p in tr[j].pairs && tr[j].pairs[p] == tr[i].pairs[p]
    decreases j
  {
    if i < j {
      var m := j - 1;
      PairsGrow(tr, es, i, m, p);
      PairsKeptAt(tr, es, m, p);
      assert tr[j] == tr[m + 1];
    }
  }

  /** No waiter is taken twice, at any two moments of a run, and nobody is both waiter and taker. */
  lemma TakenAtMostOnce(tr: seq<State>, es: seq<Event>, i: nat, j: nat, p: Pid, r: Pid)
    requires IsRun(tr, es) && i <= j < |tr|
    requires p in tr[i].pairs && r in tr[j].pairs && tr[i].pairs[p] == tr[j].pairs[r]
    ensures p == r && tr[j].pairs[r] !in tr[j].pairs
  {
    PairsGrow(tr, es, i, j, p);
    BrokerSafety(tr, es, j);
    assert PairOk(tr[j], r);
  }

  lemma KeysKept(s: State, e: Event)
    requires KeysOk(s) && Enabled(s, e)
    ensures KeysOk(Next(s, e))
  {
    var t := Next(s, e);
    forall p | p in t.streams && p in s.streams
      ensures t.streams[p].user == s.streams[p].user && t.streams[p].room == s.streams[p].room && t.streams[p].key == s.streams[p].key
    {
    }
  }

  lemma {:induction false} KeysStay(tr: seq<State>, es: seq<Event>, i: nat)
    requires IsRun(tr, es) && i < |tr|
    ensures KeysOk(tr[i])
  {
    if i > 0 {
      KeysStay(tr, es, i - 1);
      KeysKept(tr[i - 1], es[i - 1]);
    }
  }

  /** Paired streams always belong to one user and asked for one room. */
  lemma PairedSameUserAndRoom(tr: seq<State>, es: seq<Event>, i: nat, p: Pid)
    requires IsRun(tr, es) && i < |tr| && p in tr[i].pairs
    ensures p in tr[i].streams && tr[i].pairs[p] in tr[i].streams
    ensures tr[i].streams[p].user == tr[i].streams[tr[i].pairs[p]].user
    ensures tr[i].streams[p].room == tr[i].streams[tr[i].pairs[p]].room
  {
    BrokerSafety(tr, es, i);
    KeysStay(tr, es, i);
    assert PairOk(tr[i], p);
    var x, y := tr[i].streams[p], tr[i].streams[tr[i].pairs[p]];
    JoinInjective(x.user, x.room, y.user, y.room);
  }

  /** A waiter that times out or is cancelled removes its own entry, if any, and no other waiter's. */
  lemma WithdrawOwnOnly(tr: seq<State>, es: seq<Event>, i: nat)
    requires IsRun(tr, es) && i < |es| && es[i].Withdraw?
    ensures forall k :: k in tr[i + 1].waiting <==> k in tr[i].waiting && tr[i].waiting[k] != es[i].p
    ensures forall k | k in tr[i + 1].waiting :: tr[i + 1].waiting[k] == tr[i].waiting[k]
  {
    BrokerSafety(tr, es, i);
    assert tr[i + 1] == Next(tr[i], es[i]);
  }

  /** The wait's timer stays armed after pairing: a relay can go on while its waiter's handler has returned. */
  lemma RelayCanOutliveWaiter(s: State, p: Pid, q: Pid)
    requires Safe(s) && p in s.streams && s.streams[p].stage == Relaying(q) && q in s.streams && s.streams[q].stage == Parked
    ensures Enabled(s, GiveUp(q)) && Enabled(Next(s, GiveUp(q)), Withdraw(q))
    ensures var t := Next(Next(s, GiveUp(q)), Withdraw(q));
            t.streams[p].stage == Relaying(q) && t.streams[q].stage == Gone && Closes(t, q) == 0 && t.waiting == s.waiting
  {
    assert PairOk(s, p);
  }
}
