/** Traffic accounting under concurrency: registrations, byte counting on entries that may already have
    left the map, resets sweeping live entries, and the books, interleaved one atomic operation at a time.
    The mutex `mu` is modelled by the local state of the reset that sweeps under it. */
module Traffic {
  import opened Ledger
  import T = Tracker

  type Conn = T.Conn
  type Eid = nat   // identity of a connection entry; it outlives its place in the map
  type Tid = nat

  datatype Obj = Obj(conn: Conn, user: User, n: Vec)

  /** A stream, or one `AddBytes` or `TunnelOpened` call in progress. A stream registers, opens its tunnel at
      most once while its handler runs, and then its two copiers count once each, up and down; the handler may
      return and unregister before they do. */
  datatype Task =
    | Registering(user: User, conn: Conn)                   // entry placed, totals not yet created
    | Serving(conn: Conn, listed: bool, ahead: set<Kind>)   // registered; `ahead` are the counts still to come
    | Entering(e: Eid, user: User, left: Vec, whole: Vec)   // adding to the entry, `left` still to add
    | Charging(user: User, due: Vec)                        // adding to the totals, `due` still to add
    | Finished

  datatype EntriesLock = Open | Sweep(user: User, todo: set<(Eid, Kind)>)

  /** `dirty` and `uncharged` are history: counters not zeroed since their owner's totals were, and amounts
      counted on an entry but charged to nobody. */
  datatype State = State(objs: map<Eid, Obj>, cur: map<Conn, Eid>, mu: EntriesLock, tasks: map<Tid, Task>,
                         awaiting: multiset<User>, b: Books,
                         dirty: set<(Eid, Kind)>, uncharged: map<User, Vec>)

  datatype Event =
    | PlaceEntry(t: Tid, u: User, c: Conn, e: Eid)
    | CreateTotals(t: Tid)
    | Unregister(h: Tid)
    | StartCount(t: Tid, h: Tid, k: Kind, n: nat)
    | AddEntry(t: Tid, k: Kind)
    | FindTotals(t: Tid)
    | AddTotal(t: Tid, k: Kind)
    | ResetBegin(u: User)
    | ResetStore
    | SweepBegin(u: User)
    | SweepOne(e: Eid, k: Kind)
    | SweepEnd
    | Keep(a: Act)   // a step of the flusher or of the store

  function Initial(db0: map<User, nat>): State {
    State(map[], map[], Open, map[], multiset{}, Opening(db0), {}, map[])
  }

  function Lapsed(s: State, u: User): Vec {
    if u in s.uncharged then s.uncharged[u] else Zero
  }

  function Plus(a: Vec, b: Vec): Vec {
    Vec(a.inb + b.inb, a.outb + b.outb, a.tun + b.tun)
  }

  /** A stream may count `n` on counter `k`: one tunnel while its handler runs, then each direction once. */
  predicate MayCount(w: Task, k: Kind, n: nat) {
    w.Serving? && k in w.ahead && (k == Tunnels ==> w.listed && n == 1)
  }

  function Used(w: Task, k: Kind): Task
    requires w.Serving?
  {
    w.(ahead := if k == Tunnels then {In, Out} else w.ahead - {k})
  }

  predicate Enabled(s: State, ev: Event) {
    match ev
    case PlaceEntry(t, u, c, e) => s.mu.Open? && t !in s.tasks && e !in s.objs
    case CreateTotals(t) => s.b.lock.Free? && t in s.tasks && s.tasks[t].Registering?
    case Unregister(h) => s.mu.Open? && h in s.tasks && s.tasks[h].Serving? && s.tasks[h].listed
    case StartCount(t, h, k, n) => s.mu.Open? && t !in s.tasks && h in s.tasks && MayCount(s.tasks[h], k, n)
    case AddEntry(t, k) => t in s.tasks && s.tasks[t].Entering? && s.tasks[t].e in s.objs && s.tasks[t].left.Get(k) > 0
    case FindTotals(t) => s.b.lock.Free? && t in s.tasks && s.tasks[t].Entering? && s.tasks[t].left == Zero
    case AddTotal(t, k) =>
      t in s.tasks && s.tasks[t].Charging? && s.tasks[t].user in s.b.totals && s.tasks[t].due.Get(k) > 0
    case ResetBegin(u) => s.b.lock.Free?
    case ResetStore => Can(s.b, StoreZero)
    case SweepBegin(u) => s.mu.Open? && u in s.awaiting
    case SweepOne(e, k) => s.mu.Sweep? && (e, k) in s.mu.todo && e in s.objs
    case SweepEnd => s.mu.Sweep? && s.mu.todo == {}
    case Keep(a) =>
      && (a.BeginFlush? || a.Load? || a.Take? || a.EndFlush? || a.Deliver? || a.RowAdd? || a.RowReset? || a.RowDelete?)
      && Can(s.b, a)
  }

  /** The byte counters of the live entries of a user, which a sweep visits one by one. */
  function LiveCells(s: State, u: User): set<(Eid, Kind)> {
    set c, k: Kind | c in s.cur && k in {In, Out} && s.cur[c] in s.objs && s.objs[s.cur[c]].user == u :: (s.cur[c], k)
  }

  function CellsOf(s: State, u: User, k: Kind): set<(Eid, Kind)> {
    set e | e in s.objs && s.objs[e].user == u :: (e, k)
  }

  function Placed(s: State, t: Tid, u: User, c: Conn, e: Eid): State {
    s.(objs := s.objs[e := Obj(c, u, Zero)], cur := s.cur[c := e], tasks := s.tasks[t := Registering(u, c)])
  }

  /** The entry on which a call counts is the one in the map now; without one the call does nothing. */
  function Counting(s: State, c: Conn, amount: Vec): Task {
    if c in s.cur && s.cur[c] in s.objs then Entering(s.cur[c], s.objs[s.cur[c]].user, amount, amount) else Finished
  }

  function Started(s: State, t: Tid, h: Tid, k: Kind, n: nat): State
    requires Enabled(s, StartCount(t, h, k, n))
  {
    s.(tasks := s.tasks[h := Used(s.tasks[h], k)][t := Counting(s, s.tasks[h].conn, Zero.Set(k, n))])
  }

  function Unlisted(s: State, h: Tid): State
    requires Enabled(s, Unregister(h))
  {
    s.(cur := s.cur - {s.tasks[h].conn}, tasks := s.tasks[h := s.tasks[h].(listed := false)])
  }

  function Created(s: State, t: Tid): State
    requires Enabled(s, CreateTotals(t))
  {
    var w := s.tasks[t];
    s.(b := Do(s.b, Create(w.user)), tasks := s.tasks[t := Serving(w.conn, true, {Tunnels})])
  }

  function EntryAdded(s: State, t: Tid, k: Kind): State
    requires Enabled(s, AddEntry(t, k))
  {
    var w := s.tasks[t];
    var o := s.objs[w.e];
    s.(objs := s.objs[w.e := o.(n := o.n.Set(k, o.n.Get(k) + w.left.Get(k)))],
       tasks := s.tasks[t := w.(left := w.left.Set(k, 0))])
  }

  function TotalsFound(s: State, t: Tid): State
    requires Enabled(s, FindTotals(t))
  {
    var w := s.tasks[t];
    if w.user in s.b.totals
    then s.(tasks := s.tasks[t := Charging(w.user, w.whole)])
    else s.(tasks := s.tasks[t := Finished], uncharged := s.uncharged[w.user := Plus(Lapsed(s, w.user), w.whole)])
  }

  function TotalAdded(s: State, t: Tid, k: Kind): State
    requires Enabled(s, AddTotal(t, k))
  {
    var w := s.tasks[t];
    s.(b := Charged(s.b, w.user, k, w.due.Get(k)), tasks := s.tasks[t := w.(due := w.due.Set(k, 0))])
  }

  function ResetStored(s: State): State
    requires Can(s.b, StoreZero)
  {
    var l := s.b.lock;
    s.(b := Zeroed(s.b),
       dirty := if l.phase == 0 then s.dirty + CellsOf(s, l.user, In)
                else if l.phase == 1 then s.dirty + CellsOf(s, l.user, Out) else s.dirty,
       awaiting := if l.phase < 2 then s.awaiting else s.awaiting + multiset{l.user})
  }

  function SweptOne(s: State, e: Eid, k: Kind): State
    requires Enabled(s, SweepOne(e, k))
  {
    var o := s.objs[e];
    s.(objs := s.objs[e := o.(n := o.n.Set(k, 0))], mu := s.mu.(todo := s.mu.todo - {(e, k)}), dirty := s.dirty - {(e, k)})
  }

  function Next(s: State, ev: Event): State
    requires Enabled(s, ev)
  {
    match ev
    case PlaceEntry(t, u, c, e) => Placed(s, t, u, c, e)
    case CreateTotals(t) => Created(s, t)
    case Unregister(h) => Unlisted(s, h)
    case StartCount(t, h, k, n) => Started(s, t, h, k, n)
    case AddEntry(t, k) => EntryAdded(s, t, k)
    case FindTotals(t) => TotalsFound(s, t)
    case AddTotal(t, k) => TotalAdded(s, t, k)
    case ResetBegin(u) =>
      if u in s.b.totals then s.(b := Do(s.b, BeginReset(u))) else s.(awaiting := s.awaiting + multiset{u})
    case ResetStore => ResetStored(s)
    case SweepBegin(u) => s.(mu := Sweep(u, LiveCells(s, u)), awaiting := s.awaiting - multiset{u})
    case SweepOne(e, k) => SweptOne(s, e, k)
    case SweepEnd => s.(mu := Open)
    case Keep(a) => s.(b := Do(s.b, a))
  }

  /** Steps from any state. */
  ghost predicate Steps(tr: seq<State>, es: seq<Event>) {
    && |tr| == |es| + 1
    && forall i | 0 <= i < |es| :: Enabled(tr[i], es[i]) && tr[i + 1] == Next(tr[i], es[i])
  }

  ghost predicate IsRun(tr: seq<State>, es: seq<Event>, db0: map<User, nat>) {
    Steps(tr, es) && tr[0] == Initial(db0)
  }

  lemma Extended(tr: seq<State>, es: seq<Event>, ev: Event) returns (tr': seq<State>, es': seq<Event>)
    requires Steps(tr, es) && Enabled(tr[|es|], ev)
    ensures Steps(tr', es') && tr'[0] == tr[0] && es' == es + [ev] && tr'[|es'|] == Next(tr[|es|], ev)
  {
    tr', es' := tr + [Next(tr[|es|], ev)], es + [ev];
    forall i | 0 <= i < |es'| ensures Enabled(tr'[i], es'[i]) && tr'[i + 1] == Next(tr'[i], es'[i]) {
      if i < |es| {
        assert tr'[i] == tr[i] && tr'[i + 1] == tr[i + 1] && es'[i] == es[i];
      }
    }
  }

  // ---------------------------------------------------------------- conservation

  /** The step of the books that a step of the system takes, if any. */
  function ActOf(s: State, ev: Event): T.Option<Act>
    requires Enabled(s, ev)
  {
    match ev
    case CreateTotals(t) => T.Some(Create(s.tasks[t].user))
    case AddTotal(t, k) => T.Some(Charge(s.tasks[t].user, k, s.tasks[t].due.Get(k)))
    case ResetBegin(u) => if u in s.b.totals then T.Some(BeginReset(u)) else T.None
    case ResetStore => T.Some(StoreZero)
    case Keep(a) => T.Some(a)
    case _ => T.None
  }

  /** Every step of the system is no step or one legal step of the books. */
  lemma StepOfBooks(s: State, ev: Event)
    requires Enabled(s, ev)
    ensures ActOf(s, ev).None? ==> Next(s, ev).b == s.b
    ensures ActOf(s, ev).Some? ==> Can(s.b, ActOf(s, ev).value) && Next(s, ev).b == Do(s.b, ActOf(s, ev).value)
  {
  }

  /** Main result: in every interleaving, every byte ever charged to a user is in exactly one place:
      not yet flushed, in flight, in the store, lost to a failed write, or wiped by a reset. */
  lemma {:induction false} TrafficConservation(tr: seq<State>, es: seq<Event>, db0: map<User, nat>, u: User, i: nat)
    requires IsRun(tr, es, db0) && i < |tr|
    ensures Marks(tr[i].b) && Conserved(tr[i].b, db0, u)
  {
    if i > 0 {
      TrafficConservation(tr, es, db0, u, i - 1);
      StepOfBooks(tr[i - 1], es[i - 1]);
      var a := ActOf(tr[i - 1], es[i - 1]);
      if a.Some? {
        DoMarks(tr[i - 1].b, a.value);
        DoConserved(tr[i - 1].b, a.value, db0, u);
      }
    }
  }

  /** No byte is charged twice: the store never holds more than it started with plus what was counted. */
  lemma NoDoubleCharge(tr: seq<State>, es: seq<Event>, db0: map<User, nat>, u: User, i: nat)
    requires IsRun(tr, es, db0) && i < |tr|
    ensures G(tr[i].b.db, u) <= G(db0, u) + G(tr[i].b.added, u)
    ensures tr[i].b.lock.Free? && u in tr[i].b.totals ==> MarkBelow(tr[i].b.totals[u])
  {
    TrafficConservation(tr, es, db0, u, i);
  }

  /** No mutex held and nothing in flight. */
  predicate AtRest(b: Books) {
    b.lock.Free? && b.delivering == []
  }

  /** When the accounting is at rest, the store is exact if and only if nothing is unflushed, lost or wiped. */
  lemma StoreIsExactAtRest(tr: seq<State>, es: seq<Event>, db0: map<User, nat>, u: User, i: nat)
    requires IsRun(tr, es, db0) && i < |tr| && AtRest(tr[i].b)
    ensures G(tr[i].b.db, u) == G(db0, u) + G(tr[i].b.added, u)
            <==> Unflushed(tr[i].b, u) == 0 && G(tr[i].b.lost, u) == 0 && G(tr[i].b.wiped, u) == 0
  {
    TrafficConservation(tr, es, db0, u, i);
  }
}
