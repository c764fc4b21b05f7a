/** When traffic is counted on an entry and charged to nobody: the exact guard, with a continuation that shows
    the leak for every placement that meets it. */
module Uncharged {
  import opened Sums
  import opened Ledger
  import opened Traffic
  import opened LiveTotals

  predicate IsPending(w: Task, c: Conn) {
    w.Registering? && w.conn == c
  }

  /** A registration of another user on `c` has placed its entry and not yet created its totals. */
  predicate OtherPending(s: State, c: Conn, u: User) {
    exists t | t in s.tasks :: IsPending(s.tasks[t], c) && s.tasks[t].user != u
  }

  /** The stream is on `c` and has something left to count there: a direction not yet counted, or a tunnel that
      its handler may still open. */
  predicate CanCount(w: Task, c: Conn) {
    w.Serving? && w.conn == c && (In in w.ahead || Out in w.ahead || (Tunnels in w.ahead && w.listed))
  }

  predicate Carries(s: State, c: Conn) {
    exists h | h in s.tasks :: CanCount(s.tasks[h], c)
  }

  /** The guard: an entry is placed for a user without totals on a connection where some stream can still count,
      or where another user's registration is about to become such a stream. */
  predicate Risky(s: State, ev: Event) {
    ev.PlaceEntry? && ev.u !in s.b.totals && (Carries(s, ev.c) || OtherPending(s, ev.c, ev.u))
  }

  /** The owner of a live entry has totals, or will have before anybody can count on the connection. */
  ghost predicate EntryFine(s: State, c: Conn)
    requires c in s.cur && s.cur[c] in s.objs
  {
    var u := s.objs[s.cur[c]].user;
    u in s.b.totals || (!Carries(s, c) && !OtherPending(s, c, u))
  }

  ghost predicate Chargeable(s: State) {
    && s.uncharged == map[]
    && (forall c | c in s.cur && s.cur[c] in s.objs :: EntryFine(s, c))
    && (forall t | t in s.tasks && s.tasks[t].Entering? :: s.tasks[t].user in s.b.totals)
  }

  /** What could count or was pending on `c` after the step could and was before. */
  ghost predicate NothingNew(s: State, s': State, c: Conn) {
    && (Carries(s', c) ==> Carries(s, c))
    && forall u: User :: OtherPending(s', c, u) ==> OtherPending(s, c, u)
  }

  /** It is enough that every stream and pending registration on `c` was there already. */
  lemma NothingNewBy(s: State, s': State, c: Conn)
    requires forall t | t in s'.tasks && CanCount(s'.tasks[t], c) :: t in s.tasks && CanCount(s.tasks[t], c)
    requires forall t | t in s'.tasks && IsPending(s'.tasks[t], c) :: t in s.tasks && s.tasks[t] == s'.tasks[t]
    ensures NothingNew(s, s', c)
  {
    if Carries(s', c) {
      var h :| h in s'.tasks && CanCount(s'.tasks[h], c);
      assert CanCount(s.tasks[h], c);
    }
    forall u: User | OtherPending(s', c, u) ensures OtherPending(s, c, u) {
      var r :| r in s'.tasks && IsPending(s'.tasks[r], c) && s'.tasks[r].user != u;
      assert IsPending(s.tasks[r], c);
    }
  }

  lemma PlaceChargeable(s: State, t: Tid, u: User, c: Conn, e: Eid)
    requires Wf(s) && Chargeable(s) && Enabled(s, PlaceEntry(t, u, c, e)) && !Risky(s, PlaceEntry(t, u, c, e))
    ensures Chargeable(Placed(s, t, u, c, e))
  {
    var s' := Placed(s, t, u, c, e);
    forall d | d in s'.cur && s'.cur[d] in s'.objs ensures EntryFine(s', d) {
      if d != c {
        assert EntryFine(s, d);
        NothingNewBy(s, s', d);
      } else {
        PlacedFine(s, t, u, c, e);
      }
    }
  }

  lemma PlacedFine(s: State, t: Tid, u: User, c: Conn, e: Eid)
    requires Enabled(s, PlaceEntry(t, u, c, e)) && !Risky(s, PlaceEntry(t, u, c, e))
    ensures EntryFine(Placed(s, t, u, c, e), c)
  {
    var s' := Placed(s, t, u, c, e);
    if Carries(s', c) {
      var h :| h in s'.tasks && CanCount(s'.tasks[h], c);
      assert h in s.tasks && s.tasks[h] == s'.tasks[h];
    }
    if OtherPending(s', c, u) {
      var r :| r in s'.tasks && IsPending(s'.tasks[r], c) && s'.tasks[r].user != u;
      assert r in s.tasks && s.tasks[r] == s'.tasks[r];
    }
  }

  lemma CreateChargeable(s: State, t: Tid)
    requires Wf(s) && Chargeable(s) && Enabled(s, CreateTotals(t))
    ensures Chargeable(Created(s, t))
  {
    var s' := Created(s, t);
    var x := s.tasks[t];
    StepStable(s, CreateTotals(t));
    assert x.user in s'.b.totals;
    forall d | d in s'.cur && s'.cur[d] in s'.objs ensures EntryFine(s', d) {
      assert EntryFine(s, d);
      assert IsPending(x, x.conn);
      if d != x.conn {
        NothingNewBy(s, s', d);
      }
    }
  }

  /** The other steps place no entry. */
  lemma OtherFrame(s: State, ev: Event)
    requires Enabled(s, ev) && !ev.PlaceEntry? && !ev.CreateTotals?
    ensures forall c | c in Next(s, ev).cur :: c in s.cur && s.cur[c] == Next(s, ev).cur[c]
  {
  }

  /** They create no stream and no pending registration. */
  lemma OtherStreams(s: State, ev: Event, c: Conn)
    requires Enabled(s, ev) && !ev.PlaceEntry? && !ev.CreateTotals?
    ensures NothingNew(s, Next(s, ev), c)
  {
    NothingNewBy(s, Next(s, ev), c);
  }

  lemma OtherTasks(s: State, ev: Event)
    requires Wf(s) && Chargeable(s) && Enabled(s, ev) && !ev.PlaceEntry? && !ev.CreateTotals?
    ensures Next(s, ev).uncharged == map[]
    ensures forall t | t in Next(s, ev).tasks && Next(s, ev).tasks[t].Entering? :: Next(s, ev).tasks[t].user in s.b.totals
  {
    if ev.StartCount? {
      var c := s.tasks[ev.h].conn;
      assert CanCount(s.tasks[ev.h], c);
      assert c in s.cur ==> EntryFine(s, c);
    }
  }

  lemma OtherChargeable(s: State, ev: Event)
    requires Wf(s) && Chargeable(s) && Enabled(s, ev) && !ev.PlaceEntry? && !ev.CreateTotals?
    ensures Chargeable(Next(s, ev))
  {
    var s' := Next(s, ev);
    StepStable(s, ev);
    OtherFrame(s, ev);
    OtherTasks(s, ev);
    forall d | d in s'.cur && s'.cur[d] in s'.objs ensures EntryFine(s', d) {
      assert EntryFine(s, d);
      OtherStreams(s, ev, d);
    }
  }

  // ---------------------------------------------------------------- the flusher can always finish

  ghost predicate Known(b: Books) {
    Marks(b) && (b.lock.Scan? || b.lock.Loaded? ==> b.lock.todo <= b.totals.Keys)
  }

  lemma DoKnown(b: Books, a: Act)
    requires Known(b) && Can(b, a)
    ensures Known(Do(b, a))
  {
    DoMarks(b, a);
    DoKeepsTotals(b, a);
  }

  ghost predicate Sound(s: State) {
    Wf(s) && Known(s.b) && Chargeable(s)
  }

  lemma StepKnown(s: State, ev: Event)
    requires Enabled(s, ev) && Known(s.b)
    ensures Known(Next(s, ev).b)
  {
    StepOfBooks(s, ev);
    if ActOf(s, ev).Some? {
      DoKnown(s.b, ActOf(s, ev).value);
    }
  }

  lemma StepSound(s: State, ev: Event)
    requires Sound(s) && Enabled(s, ev) && !Risky(s, ev)
    ensures Sound(Next(s, ev))
  {
    StepWf(s, ev);
    StepKnown(s, ev);
    match ev
    case PlaceEntry(t, u, c, e) => PlaceChargeable(s, t, u, c, e);
    case CreateTotals(t) => CreateChargeable(s, t);
    case _ => OtherChargeable(s, ev);
  }

  /** None of the first `i` steps is a risky placement. */
  ghost predicate NeverRisky(tr: seq<State>, es: seq<Event>, i: nat)
    requires i <= |es| < |tr|
  {
    forall k | 0 <= k < i :: !Risky(tr[k], es[k])
  }

  lemma {:induction false} StepsSound(tr: seq<State>, es: seq<Event>, i: nat)
    requires Steps(tr, es) && i < |tr| && Sound(tr[0]) && NeverRisky(tr, es, i)
    ensures Sound(tr[i])
  {
    if i > 0 {
      StepsSound(tr, es, i - 1);
      assert !Risky(tr[i - 1], es[i - 1]);
      StepSound(tr[i - 1], es[i - 1]);
    }
  }

  /** Main result: a run without risky placements charges everything. */
  lemma AllCharged(tr: seq<State>, es: seq<Event>, db0: map<User, nat>, i: nat)
    requires IsRun(tr, es, db0) && i < |tr| && NeverRisky(tr, es, i)
    ensures tr[i].uncharged == map[]
  {
    StepsSound(tr, es, i);
  }

  /** Then, once every call has finished, the live counters of each user are covered by the totals alone. */
  lemma LiveBelowTotalsAtRest(tr: seq<State>, es: seq<Event>, db0: map<User, nat>, u: User, k: Kind, i: nat)
    requires IsRun(tr, es, db0) && i < |tr| && NeverRisky(tr, es, i)
    requires !Resetting(tr[i], u) || k == Tunnels
    requires forall t | t in tr[i].tasks :: OwedBy(tr[i].tasks[t], u, k) == 0
    ensures SumValues(Live(tr[i], u, k)) <= Total(tr[i].b, u).n.Get(k)
  {
    LiveBelowTotals(tr, es, db0, u, k, i);
    AllCharged(tr, es, db0, i);
    SumZero(Owed(tr[i], u, k));
  }

  // ---------------------------------------------------------------- one user per connection

  /** Every registration on a connection is for the connection's one user. */
  ghost predicate OneUserEach(es: seq<Event>, owner: map<Conn, User>) {
    forall i | 0 <= i < |es| && es[i].PlaceEntry? :: es[i].c in owner && owner[es[i].c] == es[i].u
  }

  ghost predicate OwnedTask(s: State, w: Task, owner: map<Conn, User>) {
    && (w.Registering? ==> w.conn in owner && w.user == owner[w.conn])
    && (w.Serving? ==> w.conn in owner && owner[w.conn] in s.b.totals)
  }

  ghost predicate Owned(s: State, owner: map<Conn, User>) {
    forall t | t in s.tasks :: OwnedTask(s, s.tasks[t], owner)
  }

  lemma StepOwned(s: State, ev: Event, owner: map<Conn, User>)
    requires Owned(s, owner) && Enabled(s, ev) && (ev.PlaceEntry? ==> ev.c in owner && owner[ev.c] == ev.u)
    ensures Owned(Next(s, ev), owner)
  {
    var s' := Next(s, ev);
    StepStable(s, ev);
    forall t | t in s'.tasks ensures OwnedTask(s', s'.tasks[t], owner) {
      assert t in s.tasks ==> OwnedTask(s, s.tasks[t], owner);
    }
  }

  lemma OwnedNotRisky(s: State, ev: Event, owner: map<Conn, User>)
    requires Owned(s, owner) && (ev.PlaceEntry? ==> ev.c in owner && owner[ev.c] == ev.u)
    ensures !Risky(s, ev)
  {
  }

  lemma {:induction false} RunOwned(tr: seq<State>, es: seq<Event>, db0: map<User, nat>, owner: map<Conn, User>, i: nat)
    requires IsRun(tr, es, db0) && OneUserEach(es, owner) && i < |tr|
    ensures Owned(tr[i], owner)
  {
    if i > 0 {
      RunOwned(tr, es, db0, owner, i - 1);
      StepOwned(tr[i - 1], es[i - 1], owner);
    }
  }

  /** With one user per connection no placement is risky. */
  lemma OneUserNeverRisky(tr: seq<State>, es: seq<Event>, db0: map<User, nat>, owner: map<Conn, User>)
    requires IsRun(tr, es, db0) && OneUserEach(es, owner)
    ensures NeverRisky(tr, es, |es|)
  {
    forall k | 0 <= k < |es| ensures !Risky(tr[k], es[k]) {
      RunOwned(tr, es, db0, owner, k);
      OwnedNotRisky(tr[k], es[k], owner);
    }
  }

  // ---------------------------------------------------------------- the guard is exact

  /** Nothing but the books and the resets has moved, and nobody has gained or lost totals. */
  ghost predicate SameElsewhere(s: State, s': State) {
    && s'.objs == s.objs && s'.cur == s.cur && s'.tasks == s.tasks
    && s'.uncharged == s.uncharged && s'.mu == s.mu && s'.b.totals.Keys == s.b.totals.Keys
  }

  ghost function Rank(l: Lock): nat {
    match l
    case Free => 0
    case Scan(todo, _) => 2 * |todo| + 1
    case Loaded(_, _, todo, _) => 2 * |todo| + 2
    case Wipe(_, phase, _) => if phase < 3 then 4 - phase else 1
  }

  ghost predicate Nearer(s: State, s': State) {
    Rank(s'.b.lock) < Rank(s.b.lock) && SameElsewhere(s, s')
  }

  lemma WipeMoves(s: State)
    requires Can(s.b, StoreZero)
    ensures Nearer(s, ResetStored(s))
  {
    ZeroedKeeps(s.b);
    assert ResetStored(s).b == Zeroed(s.b);
  }

  lemma TakeMoves(b: Books)
    requires Can(b, Take)
    ensures Rank(Taken(b).lock) < Rank(b.lock) && Taken(b).totals.Keys == b.totals.Keys
  {
  }

  lemma LoadMoves(b: Books, v: User)
    requires Can(b, Load(v))
    ensures Rank(Do(b, Load(v)).lock) < Rank(b.lock) && Do(b, Load(v)).totals == b.totals
  {
    assert |b.lock.todo - {v}| < |b.lock.todo|;
  }

  /** Whoever holds the totals mutex can take its next step, towards releasing it. */
  lemma HolderMoves(s: State) returns (ev: Event)
    requires Known(s.b) && !s.b.lock.Free?
    ensures Enabled(s, ev) && !ev.PlaceEntry? && Nearer(s, Next(s, ev))
  {
    match s.b.lock
    case Wipe(_, _, _) =>
      ev := ResetStore;
      WipeMoves(s);
    case Loaded(_, _, _, _) =>
      ev := Keep(Take);
      TakeMoves(s.b);
    case Scan(todo, _) =>
      if todo == {} {
        ev := Keep(EndFlush);
      } else {
        var v :| v in todo;
        ev := Keep(Load(v));
        LoadMoves(s.b, v);
      }
  }

  ghost predicate NoPlacement(es: seq<Event>) {
    forall i | 0 <= i < |es| :: !es[i].PlaceEntry?
  }

  lemma {:induction false} Released(tr: seq<State>, es: seq<Event>) returns (tr': seq<State>, es': seq<Event>)
    requires Steps(tr, es) && NoPlacement(es) && Known(tr[|es|].b)
    ensures Steps(tr', es') && NoPlacement(es') && tr'[0] == tr[0]
    ensures tr'[|es'|].b.lock.Free? && SameElsewhere(tr[|es|], tr'[|es'|]) && Known(tr'[|es'|].b)
    decreases Rank(tr[|es|].b.lock)
  {
    if tr[|es|].b.lock.Free? {
      tr', es' := tr, es;
    } else {
      var ev := HolderMoves(tr[|es|]);
      StepKnown(tr[|es|], ev);
      tr', es' := Extended(tr, es, ev);
      tr', es' := Released(tr', es');
    }
  }

  /** A moment at which stream `h` finds, on `c`, the entry of a user without totals. */
  ghost predicate Ripe(s: State, h: Tid, c: Conn, e: Eid, u: User) {
    && s.b.lock.Free? && s.mu.Open? && h in s.tasks && CanCount(s.tasks[h], c)
    && c in s.cur && s.cur[c] == e && e in s.objs && s.objs[e].user == u && u !in s.b.totals
  }

  /** The entry with the amount on it, and the call ready to look for totals. */
  lemma EnteredOnce(s: State, t: Tid, h: Tid, c: Conn, e: Eid, u: User, k: Kind, n: nat)
    requires Ripe(s, h, c, e, u) && t !in s.tasks && MayCount(s.tasks[h], k, n) && n > 0
    ensures Enabled(s, StartCount(t, h, k, n)) && Enabled(Started(s, t, h, k, n), AddEntry(t, k))
    ensures EntryAdded(Started(s, t, h, k, n), t, k)
         == s.(tasks := s.tasks[h := Used(s.tasks[h], k)][t := Entering(e, u, Zero, Zero.Set(k, n))],
               objs := s.objs[e := s.objs[e].(n := Plus(s.objs[e].n, Zero.Set(k, n)))])
  {
    var x := Started(s, t, h, k, n);
    assert x.tasks[t] == Entering(e, u, Zero.Set(k, n), Zero.Set(k, n));
    assert Zero.Set(k, n).Set(k, 0) == Zero;
    assert x.objs[e].n.Set(k, x.objs[e].n.Get(k) + n) == Plus(x.objs[e].n, Zero.Set(k, n));
  }

  lemma LapsedOnce(s: State, t: Tid, e: Eid, u: User, v: Vec)
    requires s.b.lock.Free? && t in s.tasks && s.tasks[t] == Entering(e, u, Zero, v) && u !in s.b.totals
    ensures Enabled(s, FindTotals(t))
    ensures var x := TotalsFound(s, t);
            && x.b == s.b && x.mu == s.mu && x.cur == s.cur && x.objs == s.objs && x.tasks == s.tasks[t := Finished]
            && Lapsed(x, u) == Plus(Lapsed(s, u), v)
  {
  }

  /** One call of the stream puts its amount on the entry and charges it to nobody. */
  lemma LeakOnce(tr: seq<State>, es: seq<Event>, h: Tid, c: Conn, e: Eid, u: User, k: Kind, n: nat)
    returns (tr': seq<State>, es': seq<Event>)
    requires Steps(tr, es) && NoPlacement(es) && n > 0 && Ripe(tr[|es|], h, c, e, u) && MayCount(tr[|es|].tasks[h], k, n)
    ensures Steps(tr', es') && NoPlacement(es') && tr'[0] == tr[0]
    ensures var s, s' := tr[|es|], tr'[|es'|];
            && s'.b == s.b && s'.mu == s.mu && s'.cur == s.cur && h in s'.tasks && s'.tasks[h] == Used(s.tasks[h], k)
            && s'.objs == s.objs[e := s.objs[e].(n := Plus(s.objs[e].n, Zero.Set(k, n)))]
            && Lapsed(s', u) == Plus(Lapsed(s, u), Zero.Set(k, n))
  {
    var s := tr[|es|];
    var t := Above(s.tasks.Keys);
    EnteredOnce(s, t, h, c, e, u, k, n);
    tr', es' := Extended(tr, es, StartCount(t, h, k, n));
    tr', es' := Extended(tr', es', AddEntry(t, k));
    LapsedOnce(tr'[|es'|], t, e, u, Zero.Set(k, n));
    tr', es' := Extended(tr', es', FindTotals(t));
  }

  /** `v` more is on entry `e` of `u` and charged to nobody. */
  ghost predicate Leaked(s: State, s': State, e: Eid, u: User, v: Vec) {
    && s'.b == s.b && s'.mu == s.mu && s'.cur == s.cur && Lapsed(s', u) == Plus(Lapsed(s, u), v)
    && e in s.objs && e in s'.objs && s'.objs[e] == s.objs[e].(n := Plus(s.objs[e].n, v))
  }

  lemma LeakCounted(tr: seq<State>, es: seq<Event>, h: Tid, c: Conn, e: Eid, u: User, k: Kind, n: nat)
    returns (tr': seq<State>, es': seq<Event>)
    requires Steps(tr, es) && NoPlacement(es) && n > 0 && Ripe(tr[|es|], h, c, e, u) && MayCount(tr[|es|].tasks[h], k, n)
    ensures Steps(tr', es') && NoPlacement(es') && tr'[0] == tr[0] && Leaked(tr[|es|], tr'[|es'|], e, u, Zero.Set(k, n))
    ensures k == Tunnels ==> Ripe(tr'[|es'|], h, c, e, u) && MayCount(tr'[|es'|].tasks[h], In, n)
  {
    tr', es' := LeakOnce(tr, es, h, c, e, u, k, n);
  }

  lemma LeakedTwice(s: State, s1: State, s2: State, e: Eid, u: User, v: Vec, w: Vec)
    requires Leaked(s, s1, e, u, v) && Leaked(s1, s2, e, u, w)
    ensures Leaked(s, s2, e, u, Plus(v, w))
  {
    PlusAssoc(Lapsed(s, u), v, w);
    PlusAssoc(s.objs[e].n, v, w);
  }

  lemma PlusAssoc(a: Vec, b: Vec, c: Vec)
    ensures Plus(Plus(a, b), c) == Plus(a, Plus(b, c))
  {
  }

  /** Whatever the stream has left to count, it can leak any number `n` of bytes, as `v`. */
  lemma Leaks(tr: seq<State>, es: seq<Event>, h: Tid, c: Conn, e: Eid, u: User, n: nat)
    returns (tr': seq<State>, es': seq<Event>, v: Vec)
    requires Steps(tr, es) && NoPlacement(es) && n > 0 && Ripe(tr[|es|], h, c, e, u)
    ensures Steps(tr', es') && NoPlacement(es') && tr'[0] == tr[0] && Leaked(tr[|es|], tr'[|es'|], e, u, v)
    ensures v.inb + v.outb == n
  {
    var w := tr[|es|].tasks[h];
    if In in w.ahead {
      v := Zero.Set(In, n);
      tr', es' := LeakCounted(tr, es, h, c, e, u, In, n);
    } else if Out in w.ahead {
      v := Zero.Set(Out, n);
      tr', es' := LeakCounted(tr, es, h, c, e, u, Out, n);
    } else {
      tr', es', v := LeaksOpening(tr, es, h, c, e, u, n);
    }
  }

  lemma LeaksOpening(tr: seq<State>, es: seq<Event>, h: Tid, c: Conn, e: Eid, u: User, n: nat)
    returns (tr': seq<State>, es': seq<Event>, v: Vec)
    requires Steps(tr, es) && NoPlacement(es) && n > 0 && Ripe(tr[|es|], h, c, e, u)
    requires MayCount(tr[|es|].tasks[h], Tunnels, 1)
    ensures Steps(tr', es') && NoPlacement(es') && tr'[0] == tr[0] && Leaked(tr[|es|], tr'[|es'|], e, u, v)
    ensures v == Vec(n, 0, 1)
  {
    var tr1, es1 := LeakCounted(tr, es, h, c, e, u, Tunnels, 1);
    tr', es' := LeakCounted(tr1, es1, h, c, e, u, In, n);
    v := Plus(Zero.Set(Tunnels, 1), Zero.Set(In, n));
    LeakedTwice(tr[|es|], tr1[|es1|], tr'[|es'|], e, u, Zero.Set(Tunnels, 1), Zero.Set(In, n));
  }

  /** After a risky placement the run can go on to such a moment, whoever holds the mutex. */
  lemma Exposed(s: State, ev: Event) returns (tr: seq<State>, es: seq<Event>, h: Tid)
    requires Known(s.b) && Enabled(s, ev) && Risky(s, ev)
    ensures Steps(tr, es) && NoPlacement(es) && tr[0] == Next(s, ev)
    ensures Ripe(tr[|es|], h, ev.c, ev.e, ev.u) && tr[|es|].objs[ev.e] == Obj(ev.c, ev.u, Zero) && tr[|es|].uncharged == s.uncharged
  {
    var s' := Next(s, ev);
    tr, es := Released([s'], []);
    if Carries(s, ev.c) {
      h :| h in s.tasks && CanCount(s.tasks[h], ev.c);
      assert s'.tasks[h] == s.tasks[h];
    } else {
      h :| h in s.tasks && IsPending(s.tasks[h], ev.c) && s.tasks[h].user != ev.u;
      assert s'.tasks[h] == s.tasks[h];
      tr, es := Extended(tr, es, CreateTotals(h));
    }
  }

  /** After any risky placement the run can go on to leave any number of bytes uncharged: they are on the live
      entry, and the user has no totals at all. */
  lemma RiskyLeaks(s: State, ev: Event, n: nat) returns (tr: seq<State>, es: seq<Event>, v: Vec)
    requires Known(s.b) && Enabled(s, ev) && Risky(s, ev) && n > 0
    ensures Steps(tr, es) && NoPlacement(es) && tr[0] == Next(s, ev) && v.inb + v.outb == n
    ensures var x := tr[|es|];
            && Lapsed(x, ev.u) == Plus(Lapsed(s, ev.u), v) && ev.u !in x.b.totals
            && ev.c in x.cur && x.cur[ev.c] == ev.e && ev.e in x.objs && x.objs[ev.e] == Obj(ev.c, ev.u, v)
  {
    var tr1, es1, h := Exposed(s, ev);
    tr, es, v := Leaks(tr1, es1, h, ev.c, ev.e, ev.u, n);
    assert Plus(Zero, v) == v;
  }

  /** However the run goes on without further placements, everything is charged. */
  ghost predicate StaysCharged(s: State) {
    forall tr: seq<State>, es: seq<Event> | Steps(tr, es) && NoPlacement(es) && tr[0] == s :: tr[|es|].uncharged == map[]
  }

  lemma SafeStaysCharged(s: State)
    requires Sound(s)
    ensures StaysCharged(s)
  {
    forall tr: seq<State>, es: seq<Event> | Steps(tr, es) && NoPlacement(es) && tr[0] == s
      ensures tr[|es|].uncharged == map[]
    {
      StepsSound(tr, es, |es|);
    }
  }

  lemma RiskyNotCharged(s: State, ev: Event)
    requires Known(s.b) && Enabled(s, ev) && Risky(s, ev)
    ensures !StaysCharged(Next(s, ev))
  {
    var tr, es, v := RiskyLeaks(s, ev, 1);
    assert Steps(tr, es) && NoPlacement(es);
    assert Lapsed(tr[|es|], ev.u) != Zero;
  }

  /** Main result, with the exact condition: a placement can lead to uncharged traffic, without any further
      placement, if and only if it is risky. */
  lemma PlacementLeaksIff(s: State, ev: Event)
    requires Sound(s) && ev.PlaceEntry? && Enabled(s, ev)
    ensures StaysCharged(Next(s, ev)) <==> !Risky(s, ev)
  {
    if Risky(s, ev) {
      RiskyNotCharged(s, ev);
    } else {
      StepSound(s, ev);
      SafeStaysCharged(Next(s, ev));
    }
  }
}
