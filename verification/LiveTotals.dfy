/** Live counters never run ahead of lifetime totals, across re-registration, exits and resets. */
module LiveTotals {
  import opened Sums
  import opened Ledger
  import opened Traffic

  /** What one call has put on an entry and not yet charged. */
  function OwedBy(w: Task, u: User, k: Kind): int {
    match w
    case Entering(e, v, left, whole) => if v == u then whole.Get(k) - left.Get(k) else 0
    case Charging(v, due) => if v == u then due.Get(k) else 0
    case _ => 0
  }

  ghost function Owed(s: State, u: User, k: Kind): map<Tid, int> {
    map t | t in s.tasks :: OwedBy(s.tasks[t], u, k)
  }

  /** Counter `k` of each live entry of `u`. */
  ghost function Live(s: State, u: User, k: Kind): map<Conn, int> {
    map c | c in s.cur :: if s.cur[c] in s.objs && s.objs[s.cur[c]].user == u then s.objs[s.cur[c]].n.Get(k) else 0
  }

  ghost function CleanAt(s: State, c: Conn, u: User, k: Kind): int
    requires c in s.cur
  {
    var e := s.cur[c];
    if e in s.objs && s.objs[e].user == u && (e, k) !in s.dirty then s.objs[e].n.Get(k) else 0
  }

  /** Like `Live`, counting only counters zeroed since the totals of their owner were. */
  ghost function Clean(s: State, u: User, k: Kind): map<Conn, int> {
    map c | c in s.cur :: CleanAt(s, c, u, k)
  }

  ghost predicate Below(a: Vec, b: Vec) {
    a.inb <= b.inb && a.outb <= b.outb && a.tun <= b.tun
  }

  ghost predicate TaskOk(s: State, w: Task) {
    match w
    case Entering(e, u, left, whole) => e in s.objs && s.objs[e].user == u && Below(left, whole)
    case Charging(u, due) => u in s.b.totals
    case _ => true
  }

  ghost predicate Wf(s: State) {
    && (forall c | c in s.cur :: s.cur[c] in s.objs && s.objs[s.cur[c]].conn == c)
    && (forall t | t in s.tasks :: TaskOk(s, s.tasks[t]))
    && (forall d | d in s.dirty :: d.0 in s.objs && (d.1 == In || d.1 == Out))
  }

  ghost predicate Bound(s: State, u: User, k: Kind) {
    SumValues(Clean(s, u, k)) <= Total(s.b, u).n.Get(k) + SumValues(Owed(s, u, k)) + Lapsed(s, u).Get(k)
  }

  lemma OwedNonNegative(s: State, u: User, k: Kind)
    requires Wf(s)
    ensures SumValues(Owed(s, u, k)) >= 0
  {
    forall t | t in s.tasks ensures OwedBy(s.tasks[t], u, k) >= 0 {
      assert TaskOk(s, s.tasks[t]);
    }
    SumNonNegative(Owed(s, u, k));
  }

  /** Changing one call changes the owed sum by the difference. */
  lemma OwedChange(s: State, s': State, t: Tid, u: User, k: Kind)
    requires t in s'.tasks && s'.tasks == s.tasks[t := s'.tasks[t]]
    ensures SumValues(Owed(s', u, k)) ==
            SumValues(Owed(s, u, k)) + OwedBy(s'.tasks[t], u, k) - if t in s.tasks then OwedBy(s.tasks[t], u, k) else 0
  {
    var v := OwedBy(s'.tasks[t], u, k);
    assert Owed(s', u, k) == Owed(s, u, k)[t := v];
    if t in s.tasks {
      SumUpdate(Owed(s, u, k), t, v);
    } else {
      SumInsert(Owed(s, u, k), t, v);
    }
  }

  /** Changing what one connection contributes changes the clean sum by the difference. */
  lemma CleanChange(s: State, s': State, c: Conn, u: User, k: Kind)
    requires c in s'.cur && s'.cur.Keys == s.cur.Keys + {c}
    requires forall d | d in s.cur && d != c :: CleanAt(s', d, u, k) == CleanAt(s, d, u, k)
    ensures SumValues(Clean(s', u, k)) ==
            SumValues(Clean(s, u, k)) + CleanAt(s', c, u, k) - if c in s.cur then CleanAt(s, c, u, k) else 0
  {
    var v := CleanAt(s', c, u, k);
    assert Clean(s', u, k) == Clean(s, u, k)[c := v];
    if c in s.cur {
      SumUpdate(Clean(s, u, k), c, v);
    } else {
      SumInsert(Clean(s, u, k), c, v);
    }
  }

  lemma CleanSame(s: State, s': State, u: User, k: Kind)
    requires s'.cur == s.cur
    requires forall d | d in s.cur :: CleanAt(s', d, u, k) == CleanAt(s, d, u, k)
    ensures Clean(s', u, k) == Clean(s, u, k)
  {
  }

  lemma PlaceBound(s: State, ev: Event, u: User, k: Kind)
    requires Wf(s) && ev.PlaceEntry? && Enabled(s, ev) && Bound(s, u, k)
    ensures Bound(Next(s, ev), u, k)
  {
    var s' := Next(s, ev);
    OwedChange(s, s', ev.t, u, k);
    CleanChange(s, s', ev.c, u, k);
  }

  lemma UnlistedClean(s: State, h: Tid, u: User, k: Kind)
    requires Enabled(s, Unregister(h))
    ensures SumValues(Clean(Unlisted(s, h), u, k)) <= SumValues(Clean(s, u, k))
  {
    var s' := Unlisted(s, h);
    var c := s.tasks[h].conn;
    if c in s.cur {
      SumRemove(Clean(s, u, k), c);
      CleanNonNegative(s, c, u, k);
      assert Clean(s', u, k) == Clean(s, u, k) - {c};
    } else {
      assert s'.cur == s.cur;
      CleanSame(s, s', u, k);
    }
  }

  lemma UnregisterBound(s: State, h: Tid, u: User, k: Kind)
    requires Enabled(s, Unregister(h)) && Bound(s, u, k)
    ensures Bound(Unlisted(s, h), u, k)
  {
    UnlistedClean(s, h, u, k);
    OwedChange(s, Unlisted(s, h), h, u, k);
  }

  lemma CleanNonNegative(s: State, c: Conn, u: User, k: Kind)
    requires c in s.cur
    ensures CleanAt(s, c, u, k) >= 0
  {
  }

  lemma GetSet(v: Vec, j: Kind, n: nat, k: Kind)
    ensures v.Set(j, n).Get(k) == if j == k then n else v.Get(k)
  {
  }

  /** Adding to an entry raises what is owed, and the clean sum by as much or not at all. */
  lemma AddEntryBound(s: State, t: Tid, j: Kind, u: User, k: Kind)
    requires Wf(s) && Enabled(s, AddEntry(t, j)) && Bound(s, u, k)
    ensures Bound(EntryAdded(s, t, j), u, k)
  {
    var s' := EntryAdded(s, t, j);
    var w := s.tasks[t];
    var o := s.objs[w.e];
    assert TaskOk(s, w);
    OwedChange(s, s', t, u, k);
    GetSet(w.left, j, 0, k);
    GetSet(o.n, j, o.n.Get(j) + w.left.Get(j), k);
    var gain := if w.user == u && j == k then w.left.Get(j) else 0;
    assert OwedBy(s'.tasks[t], u, k) == OwedBy(w, u, k) + gain;
    forall d | d in s.cur && s.cur[d] != w.e ensures CleanAt(s', d, u, k) == CleanAt(s, d, u, k) {
    }
    if o.conn in s.cur && s.cur[o.conn] == w.e {
      assert CleanAt(s', o.conn, u, k) <= CleanAt(s, o.conn, u, k) + gain;
      CleanChange(s, s', o.conn, u, k);
    } else {
      CleanSame(s, s', u, k);
    }
    assert Total(s'.b, u) == Total(s.b, u) && Lapsed(s', u) == Lapsed(s, u);
  }

  lemma CreateBound(s: State, t: Tid, u: User, k: Kind)
    requires Enabled(s, CreateTotals(t)) && Bound(s, u, k)
    ensures Bound(Created(s, t), u, k)
  {
    var s' := Created(s, t);
    OwedChange(s, s', t, u, k);
    CleanSame(s, s', u, k);
    assert Total(s'.b, u) == Total(s.b, u);
  }

  lemma StartBound(s: State, t: Tid, h: Tid, j: Kind, n: nat, u: User, k: Kind)
    requires Enabled(s, StartCount(t, h, j, n)) && Bound(s, u, k)
    ensures Bound(Started(s, t, h, j, n), u, k)
  {
    var m := s.(tasks := s.tasks[h := Used(s.tasks[h], j)]);
    var s' := Started(s, t, h, j, n);
    OwedChange(s, m, h, u, k);
    OwedChange(m, s', t, u, k);
    assert OwedBy(s'.tasks[t], u, k) == 0;
    CleanSame(s, s', u, k);
  }

  lemma FoundBound(s: State, t: Tid, u: User, k: Kind)
    requires Enabled(s, FindTotals(t)) && s.tasks[t].user in s.b.totals && Bound(s, u, k)
    ensures Bound(TotalsFound(s, t), u, k)
  {
    var s' := TotalsFound(s, t);
    var w := s.tasks[t];
    assert OwedBy(s'.tasks[t], u, k) == OwedBy(w, u, k);
    OwedChange(s, s', t, u, k);
    CleanSame(s, s', u, k);
  }

  lemma LapsedBound(s: State, t: Tid, u: User, k: Kind)
    requires Enabled(s, FindTotals(t)) && s.tasks[t].user !in s.b.totals && Bound(s, u, k)
    ensures Bound(TotalsFound(s, t), u, k)
  {
    var s' := TotalsFound(s, t);
    var w := s.tasks[t];
    assert OwedBy(w, u, k) == if w.user == u then w.whole.Get(k) else 0;
    OwedChange(s, s', t, u, k);
    CleanSame(s, s', u, k);
    GetPlus(Lapsed(s, w.user), w.whole, k);
  }

  lemma FindBound(s: State, t: Tid, u: User, k: Kind)
    requires Enabled(s, FindTotals(t)) && Bound(s, u, k)
    ensures Bound(TotalsFound(s, t), u, k)
  {
    if s.tasks[t].user in s.b.totals {
      FoundBound(s, t, u, k);
    } else {
      LapsedBound(s, t, u, k);
    }
  }

  lemma GetPlus(a: Vec, b: Vec, k: Kind)
    ensures Plus(a, b).Get(k) == a.Get(k) + b.Get(k)
  {
  }

  lemma ChargeBound(s: State, t: Tid, j: Kind, u: User, k: Kind)
    requires Enabled(s, AddTotal(t, j)) && Bound(s, u, k)
    ensures Bound(TotalAdded(s, t, j), u, k)
  {
    var s' := TotalAdded(s, t, j);
    var w := s.tasks[t];
    OwedChange(s, s', t, u, k);
    CleanSame(s, s', u, k);
    GetSet(w.due, j, 0, k);
    GetSet(Total(s.b, w.user).n, j, Total(s.b, w.user).n.Get(j) + w.due.Get(j), k);
    assert Lapsed(s', u) == Lapsed(s, u);
  }

  ghost predicate Clears(b: Books, u: User, k: Kind) {
    b.lock.Wipe? && b.lock.user == u && ((b.lock.phase == 0 && k == In) || (b.lock.phase == 1 && k == Out))
  }

  lemma ZeroedTotals(b: Books, u: User, k: Kind)
    requires Can(b, StoreZero)
    ensures Total(Zeroed(b), u).n.Get(k) == if Clears(b, u, k) then 0 else Total(b, u).n.Get(k)
  {
  }

  /** Zeroing a total makes exactly the counters it covers dirty. */
  lemma ResetCells(s: State, c: Conn, u: User, k: Kind)
    requires Wf(s) && Can(s.b, StoreZero) && c in s.cur
    ensures CleanAt(ResetStored(s), c, u, k) == if Clears(s.b, u, k) then 0 else CleanAt(s, c, u, k)
  {
    var e := s.cur[c];
    assert (e, k) in CellsOf(s, s.objs[e].user, k);
  }

  lemma ResetParts(s: State)
    requires Can(s.b, StoreZero)
    ensures var s' := ResetStored(s);
            s'.b == Zeroed(s.b) && s'.cur == s.cur && s'.tasks == s.tasks && s'.uncharged == s.uncharged
  {
  }

  lemma ResetBound(s: State, u: User, k: Kind)
    requires Wf(s) && Can(s.b, StoreZero) && Bound(s, u, k)
    ensures Bound(ResetStored(s), u, k)
  {
    var s' := ResetStored(s);
    ResetParts(s);
    forall c | c in s.cur ensures CleanAt(s', c, u, k) == if Clears(s.b, u, k) then 0 else CleanAt(s, c, u, k) {
      ResetCells(s, c, u, k);
    }
    ZeroedTotals(s.b, u, k);
    OwedNonNegative(s, u, k);
    ZeroedBound(s, s', u, k, Clears(s.b, u, k));
  }

  lemma ZeroedBound(s: State, s': State, u: User, k: Kind, cleared: bool)
    requires Bound(s, u, k) && SumValues(Owed(s, u, k)) >= 0
    requires s'.cur == s.cur && s'.tasks == s.tasks && s'.uncharged == s.uncharged
    requires forall c | c in s.cur :: CleanAt(s', c, u, k) == if cleared then 0 else CleanAt(s, c, u, k)
    requires Total(s'.b, u).n.Get(k) == if cleared then 0 else Total(s.b, u).n.Get(k)
    ensures Bound(s', u, k)
  {
    assert Owed(s', u, k) == Owed(s, u, k);
    if cleared {
      SumZero(Clean(s', u, k));
    } else {
      CleanSame(s, s', u, k);
    }
  }

  lemma SweepBound(s: State, e: Eid, j: Kind, u: User, k: Kind)
    requires Wf(s) && Enabled(s, SweepOne(e, j)) && Bound(s, u, k)
    ensures Bound(SweptOne(s, e, j), u, k)
  {
    var s' := SweptOne(s, e, j);
    var o := s.objs[e];
    assert Owed(s', u, k) == Owed(s, u, k);
    GetSet(o.n, j, 0, k);
    forall d | d in s.cur && s.cur[d] != e ensures CleanAt(s', d, u, k) == CleanAt(s, d, u, k) {
    }
    if o.conn in s.cur && s.cur[o.conn] == e {
      assert CleanAt(s', o.conn, u, k) <= CleanAt(s, o.conn, u, k);
      CleanChange(s, s', o.conn, u, k);
    } else {
      CleanSame(s, s', u, k);
    }
    assert Total(s'.b, u) == Total(s.b, u) && Lapsed(s', u) == Lapsed(s, u);
  }

  /** Steps of the flusher and of the store never change a counter. */
  lemma KeepTotals(b: Books, a: Act, u: User)
    requires Can(b, a) && !a.Charge? && !a.StoreZero?
    ensures Total(Do(b, a), u).n == Total(b, u).n
  {
  }

  lemma KeepBound(s: State, a: Act, u: User, k: Kind)
    requires Enabled(s, Keep(a)) && Bound(s, u, k)
    ensures Bound(Next(s, Keep(a)), u, k)
  {
    KeepTotals(s.b, a, u);
    var b' := Do(s.b, a);
    BooksBound(s, s.(b := b'), u, k);
  }

  /** Only what the bound speaks of matters to it. */
  lemma BooksBound(s: State, s': State, u: User, k: Kind)
    requires s'.tasks == s.tasks && s'.cur == s.cur && s'.objs == s.objs && s'.dirty == s.dirty && s'.uncharged == s.uncharged
    requires Total(s'.b, u).n == Total(s.b, u).n && Bound(s, u, k)
    ensures Bound(s', u, k)
  {
    assert Owed(s', u, k) == Owed(s, u, k);
    CleanSame(s, s', u, k);
  }

  lemma BeginBound(s: State, v: User, u: User, k: Kind)
    requires Enabled(s, ResetBegin(v)) && Bound(s, u, k)
    ensures Bound(Next(s, ResetBegin(v)), u, k)
  {
    if v in s.b.totals {
      var b' := s.b.(lock := Wipe(v, 0, 0));
      BooksBound(s, s.(b := b'), u, k);
    } else {
      BooksBound(s, s.(awaiting := s.awaiting + multiset{v}), u, k);
    }
  }

  lemma IdleBound(s: State, ev: Event, u: User, k: Kind)
    requires (ev.SweepBegin? || ev.SweepEnd?) && Enabled(s, ev) && Bound(s, u, k)
    ensures Bound(Next(s, ev), u, k)
  {
    BooksBound(s, Next(s, ev), u, k);
  }

  lemma StepBound(s: State, ev: Event, u: User, k: Kind)
    requires Wf(s) && Enabled(s, ev) && Bound(s, u, k)
    ensures Bound(Next(s, ev), u, k)
  {
    match ev
    case PlaceEntry(_, _, _, _) => PlaceBound(s, ev, u, k);
    case Unregister(h) => UnregisterBound(s, h, u, k);
    case AddEntry(t, j) => AddEntryBound(s, t, j, u, k);
    case StartCount(t, h, j, n) => StartBound(s, t, h, j, n, u, k);
    case CreateTotals(t) => CreateBound(s, t, u, k);
    case FindTotals(t) => FindBound(s, t, u, k);
    case AddTotal(t, j) => ChargeBound(s, t, j, u, k);
    case ResetStore => ResetBound(s, u, k);
    case SweepOne(e, j) => SweepBound(s, e, j, u, k);
    case Keep(a) => KeepBound(s, a, u, k);
    case ResetBegin(v) => BeginBound(s, v, u, k);
    case _ => IdleBound(s, ev, u, k);
  }

  /** Entries keep their identity and totals are never dropped. */
  ghost predicate Stable(s: State, s': State) {
    && (forall e | e in s.objs :: e in s'.objs && s'.objs[e].user == s.objs[e].user && s'.objs[e].conn == s.objs[e].conn)
    && (forall v | v in s.b.totals :: v in s'.b.totals)
  }

  lemma DoKeepsTotals(b: Books, a: Act)
    requires Can(b, a)
    ensures forall v | v in b.totals :: v in Do(b, a).totals
  {
  }

  lemma StableEntries(s: State, ev: Event)
    requires Enabled(s, ev) && (ev.PlaceEntry? || ev.AddEntry? || ev.SweepOne?)
    ensures Stable(s, Next(s, ev))
  {
  }

  lemma StableCharge(s: State, ev: Event)
    requires Enabled(s, ev) && (ev.CreateTotals? || ev.AddTotal?)
    ensures Stable(s, Next(s, ev))
  {
    assert Next(s, ev).objs == s.objs;
  }

  lemma ZeroedKeeps(b: Books)
    requires Can(b, StoreZero)
    ensures Zeroed(b).totals.Keys == b.totals.Keys
  {
  }

  lemma StableStore(s: State)
    requires Can(s.b, StoreZero)
    ensures Stable(s, ResetStored(s))
  {
    ZeroedKeeps(s.b);
    assert ResetStored(s).b.totals == Zeroed(s.b).totals && ResetStored(s).objs == s.objs;
  }

  lemma StableBegin(s: State, u: User)
    requires Enabled(s, ResetBegin(u))
    ensures Stable(s, Next(s, ResetBegin(u)))
  {
    var s' := Next(s, ResetBegin(u));
    assert s'.objs == s.objs && s'.b.totals == s.b.totals;
  }

  lemma StepStable(s: State, ev: Event)
    requires Enabled(s, ev)
    ensures Stable(s, Next(s, ev))
  {
    if ev.PlaceEntry? || ev.AddEntry? || ev.SweepOne? {
      StableEntries(s, ev);
    } else if ev.CreateTotals? || ev.AddTotal? {
      StableCharge(s, ev);
    } else if ev.ResetStore? {
      StableStore(s);
    } else if ev.ResetBegin? {
      StableBegin(s, ev.u);
    } else if ev.Keep? {
      DoKeepsTotals(s.b, ev.a);
    }
  }

  lemma AddEntryTask(s: State, t: Tid, k: Kind)
    requires Wf(s) && Enabled(s, AddEntry(t, k))
    ensures TaskOk(EntryAdded(s, t, k), EntryAdded(s, t, k).tasks[t])
  {
    assert TaskOk(s, s.tasks[t]);
    assert Below(s.tasks[t].left.Set(k, 0), s.tasks[t].left);
  }

  lemma AddTotalTask(s: State, t: Tid, k: Kind)
    requires Enabled(s, AddTotal(t, k))
    ensures TaskOk(TotalAdded(s, t, k), TotalAdded(s, t, k).tasks[t])
  {
  }

  lemma TaskStays(s: State, s': State, w: Task)
    requires TaskOk(s, w) && Stable(s, s')
    ensures TaskOk(s', w)
  {
  }

  /** A task that a step creates or moves is in order. */
  lemma MovedTask(s: State, ev: Event, t: Tid)
    requires Wf(s) && Enabled(s, ev) && t in Next(s, ev).tasks && !(t in s.tasks && Next(s, ev).tasks[t] == s.tasks[t])
    ensures TaskOk(Next(s, ev), Next(s, ev).tasks[t])
  {
    match ev
    case AddEntry(_, k) => AddEntryTask(s, t, k);
    case AddTotal(_, k) => AddTotalTask(s, t, k);
    case _ =>
  }

  lemma StepTask(s: State, ev: Event, t: Tid)
    requires Wf(s) && Enabled(s, ev) && t in Next(s, ev).tasks
    ensures TaskOk(Next(s, ev), Next(s, ev).tasks[t])
  {
    if t in s.tasks && Next(s, ev).tasks[t] == s.tasks[t] {
      StepStable(s, ev);
      TaskStays(s, Next(s, ev), s.tasks[t]);
    } else {
      MovedTask(s, ev, t);
    }
  }

  lemma CurFrame(s: State, ev: Event, c: Conn)
    requires Wf(s) && Enabled(s, ev) && c in Next(s, ev).cur
    ensures (c in s.cur && s.cur[c] == Next(s, ev).cur[c]) || (ev.PlaceEntry? && Next(s, ev).cur[c] !in s.objs)
  {
  }

  lemma CurWf(s: State, ev: Event)
    requires Wf(s) && Enabled(s, ev)
    ensures var s' := Next(s, ev); forall c | c in s'.cur :: s'.cur[c] in s'.objs && s'.objs[s'.cur[c]].conn == c
  {
    var s' := Next(s, ev);
    StepStable(s, ev);
    forall c | c in s'.cur ensures s'.cur[c] in s'.objs && s'.objs[s'.cur[c]].conn == c {
      CurFrame(s, ev, c);
    }
  }

  lemma DirtyWf(s: State, ev: Event)
    requires Wf(s) && Enabled(s, ev)
    ensures forall d | d in Next(s, ev).dirty :: d.0 in s.objs && (d.1 == In || d.1 == Out)
  {
  }

  lemma StepWf(s: State, ev: Event)
    requires Wf(s) && Enabled(s, ev)
    ensures Wf(Next(s, ev))
  {
    var s' := Next(s, ev);
    CurWf(s, ev);
    DirtyWf(s, ev);
    StepStable(s, ev);
    forall t | t in s'.tasks ensures TaskOk(s', s'.tasks[t]) {
      StepTask(s, ev, t);
    }
  }

  // ---------------------------------------------------------------- resets in progress

  ghost predicate Resetting(s: State, u: User) {
    || (s.b.lock.Wipe? && s.b.lock.user == u)
    || u in s.awaiting
    || (s.mu.Sweep? && s.mu.user == u)
  }

  /** A reset that has yet to reach counter `k` of entry `e` is under way. */
  ghost predicate Covered(s: State, u: User, e: Eid, k: Kind) {
    || (s.b.lock.Wipe? && s.b.lock.user == u)
    || u in s.awaiting
    || (s.mu.Sweep? && s.mu.user == u && (e, k) in s.mu.todo)
  }

  ghost predicate DirtyCovered(s: State) {
    forall c, k: Kind | c in s.cur && (s.cur[c], k) in s.dirty && s.cur[c] in s.objs ::
      Covered(s, s.objs[s.cur[c]].user, s.cur[c], k)
  }

  /** Only resets change what covers a counter; elsewhere cover is kept and nothing becomes dirty. */
  lemma CoverFrame(s: State, ev: Event)
    requires Enabled(s, ev) && !ev.ResetStore? && !ev.SweepBegin? && !ev.SweepOne? && !ev.SweepEnd?
    ensures Next(s, ev).dirty == s.dirty && Next(s, ev).mu == s.mu && s.awaiting <= Next(s, ev).awaiting
    ensures s.b.lock.Wipe? ==> Next(s, ev).b.lock == s.b.lock
  {
  }

  lemma ResetCover(s: State, c: Conn, k: Kind)
    requires Wf(s) && DirtyCovered(s) && Can(s.b, StoreZero)
    requires c in s.cur && (s.cur[c], k) in ResetStored(s).dirty
    ensures Covered(ResetStored(s), s.objs[s.cur[c]].user, s.cur[c], k)
  {
    var e := s.cur[c];
    if (e, k) in s.dirty {
      assert Covered(s, s.objs[e].user, e, k);
    }
  }

  lemma SweepCover(s: State, ev: Event, c: Conn, k: Kind)
    requires Wf(s) && DirtyCovered(s) && Enabled(s, ev) && (ev.SweepBegin? || ev.SweepOne? || ev.SweepEnd?)
    requires c in s.cur && (s.cur[c], k) in Next(s, ev).dirty
    ensures Covered(Next(s, ev), s.objs[s.cur[c]].user, s.cur[c], k)
  {
    var e := s.cur[c];
    assert Covered(s, s.objs[e].user, e, k);
    if ev.SweepBegin? && ev.u == s.objs[e].user {
      assert (e, k) in LiveCells(s, ev.u);
    }
  }

  lemma StepCoveredCell(s: State, ev: Event, c: Conn, k: Kind)
    requires Wf(s) && DirtyCovered(s) && Enabled(s, ev)
    requires c in Next(s, ev).cur && (Next(s, ev).cur[c], k) in Next(s, ev).dirty
    requires Next(s, ev).cur[c] in Next(s, ev).objs
    ensures Covered(Next(s, ev), Next(s, ev).objs[Next(s, ev).cur[c]].user, Next(s, ev).cur[c], k)
  {
    CurFrame(s, ev, c);
    StepStable(s, ev);
    if ev.ResetStore? {
      ResetCover(s, c, k);
    } else if ev.SweepBegin? || ev.SweepOne? || ev.SweepEnd? {
      SweepCover(s, ev, c, k);
    } else {
      CoverFrame(s, ev);
      assert Covered(s, s.objs[s.cur[c]].user, s.cur[c], k);
    }
  }

  lemma StepCovered(s: State, ev: Event)
    requires Wf(s) && DirtyCovered(s) && Enabled(s, ev)
    ensures DirtyCovered(Next(s, ev))
  {
    var s' := Next(s, ev);
    forall c, k: Kind | c in s'.cur && (s'.cur[c], k) in s'.dirty && s'.cur[c] in s'.objs
      ensures Covered(s', s'.objs[s'.cur[c]].user, s'.cur[c], k)
    {
      StepCoveredCell(s, ev, c, k);
    }
  }

  lemma {:induction false} RunBound(tr: seq<State>, es: seq<Event>, db0: map<User, nat>, u: User, k: Kind, i: nat)
    requires IsRun(tr, es, db0) && i < |tr|
    ensures Wf(tr[i]) && DirtyCovered(tr[i]) && Bound(tr[i], u, k)
  {
    if i == 0 {
      assert Clean(tr[0], u, k) == map[];
      assert Owed(tr[0], u, k) == map[];
    } else {
      RunBound(tr, es, db0, u, k, i - 1);
      StepWf(tr[i - 1], es[i - 1]);
      StepCovered(tr[i - 1], es[i - 1]);
      StepBound(tr[i - 1], es[i - 1], u, k);
    }
  }

  /** Main result: whenever no reset of `u` is under way (for tunnel counts: always), the live counters of
      `u` add up to at most the lifetime total, plus what running calls are about to charge, plus what was
      counted while `u` had no totals. */
  lemma LiveBelowTotals(tr: seq<State>, es: seq<Event>, db0: map<User, nat>, u: User, k: Kind, i: nat)
    requires IsRun(tr, es, db0) && i < |tr|
    requires !Resetting(tr[i], u) || k == Tunnels
    ensures SumValues(Live(tr[i], u, k))
            <= Total(tr[i].b, u).n.Get(k) + SumValues(Owed(tr[i], u, k)) + Lapsed(tr[i], u).Get(k)
  {
    RunBound(tr, es, db0, u, k, i);
    var s := tr[i];
    forall c | c in s.cur
      ensures CleanAt(s, c, u, k) ==
              if s.cur[c] in s.objs && s.objs[s.cur[c]].user == u then s.objs[s.cur[c]].n.Get(k) else 0
    {
    }
    assert Live(s, u, k) == Clean(s, u, k);
  }
}
