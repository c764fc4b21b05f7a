/** From the amounts given to the counting calls to the bytes in the books: nothing is lost on the way. */
module Amounts {
  import opened Sums
  import opened Ledger
  import opened Traffic

  function Bytes(v: Vec): int {
    v.inb + v.outb
  }

  /** Bytes of `u` that a call was given and has not charged yet. */
  function DueBy(w: Task, u: User): int {
    match w
    case Entering(_, v, _, whole) => if v == u then Bytes(whole) else 0
    case Charging(v, due) => if v == u then Bytes(due) else 0
    case _ => 0
  }

  ghost function Due(tasks: map<Tid, Task>, u: User): map<Tid, int> {
    map t | t in tasks :: DueBy(tasks[t], u)
  }

  lemma DueChange(tasks: map<Tid, Task>, t: Tid, w: Task, u: User)
    ensures SumValues(Due(tasks[t := w], u))
         == SumValues(Due(tasks, u)) + DueBy(w, u) - if t in tasks then DueBy(tasks[t], u) else 0
  {
    var v: int := DueBy(w, u);
    assert Due(tasks[t := w], u) == Due(tasks, u)[t := v];
    if t in tasks {
      SumUpdate(Due(tasks, u), t, v);
    } else {
      SumInsert(Due(tasks, u), t, v);
    }
  }

  /** The bytes of `u` that a step gives to a counting call: the call finds the entry of `u`. */
  function GivenAt(s: State, ev: Event, u: User): int {
    if Enabled(s, ev) && ev.StartCount? then DueBy(Counting(s, s.tasks[ev.h].conn, Zero.Set(ev.k, ev.n)), u) else 0
  }

  ghost function Given(tr: seq<State>, es: seq<Event>, u: User, i: nat): int
    requires i <= |es| < |tr|
  {
    if i == 0 then 0 else Given(tr, es, u, i - 1) + GivenAt(tr[i - 1], es[i - 1], u)
  }

  /** Where a given byte can be: charged, still with its call, or counted while `u` had no totals. */
  ghost function Accounted(s: State, u: User): int {
    G(s.b.added, u) + SumValues(Due(s.tasks, u)) + Bytes(Lapsed(s, u))
  }

  /** The bytes that task `t` holds for `u`. */
  function DueAt(s: State, t: Tid, u: User): int {
    if t in s.tasks then DueBy(s.tasks[t], u) else 0
  }

  /** A step that moves one task, and bytes only between that task, the totals and the uncharged. */
  lemma TaskAccounted(s: State, s': State, t: Tid, u: User)
    requires t in s'.tasks && s'.tasks == s.tasks[t := s'.tasks[t]]
    requires G(s'.b.added, u) + Bytes(Lapsed(s', u)) + DueAt(s', t, u) == G(s.b.added, u) + Bytes(Lapsed(s, u)) + DueAt(s, t, u)
    ensures Accounted(s', u) == Accounted(s, u)
  {
    DueChange(s.tasks, t, s'.tasks[t], u);
  }

  lemma HeldAccounted(s: State, s': State, t: Tid, u: User)
    requires t in s'.tasks && s'.tasks == s.tasks[t := s'.tasks[t]]
    requires s'.b.added == s.b.added && s'.uncharged == s.uncharged && DueAt(s', t, u) == DueAt(s, t, u)
    ensures Accounted(s', u) == Accounted(s, u)
  {
    TaskAccounted(s, s', t, u);
  }

  lemma NewAccounted(s: State, s': State, t: Tid, u: User)
    requires t !in s.tasks && t in s'.tasks && s'.tasks == s.tasks[t := s'.tasks[t]]
    requires s'.b.added == s.b.added && s'.uncharged == s.uncharged
    ensures Accounted(s', u) == Accounted(s, u) + DueBy(s'.tasks[t], u)
  {
    DueChange(s.tasks, t, s'.tasks[t], u);
  }

  lemma StartAccounted(s: State, t: Tid, h: Tid, k: Kind, n: nat, u: User)
    requires Enabled(s, StartCount(t, h, k, n))
    ensures Accounted(Started(s, t, h, k, n), u) == Accounted(s, u) + GivenAt(s, StartCount(t, h, k, n), u)
  {
    var m := s.(tasks := s.tasks[h := Used(s.tasks[h], k)]);
    HeldAccounted(s, m, h, u);
    NewAccounted(m, Started(s, t, h, k, n), t, u);
  }

  lemma FindMoves(s: State, t: Tid)
    requires Enabled(s, FindTotals(t))
    ensures var s' := TotalsFound(s, t);
            && s'.b == s.b && t in s'.tasks && s'.tasks == s.tasks[t := s'.tasks[t]]
            && s'.tasks[t] == if s.tasks[t].user in s.b.totals then Charging(s.tasks[t].user, s.tasks[t].whole) else Finished
  {
  }

  lemma FoundAccounted(s: State, t: Tid, u: User)
    requires Enabled(s, FindTotals(t)) && s.tasks[t].user in s.b.totals
    ensures Accounted(TotalsFound(s, t), u) == Accounted(s, u)
  {
    FindMoves(s, t);
    HeldAccounted(s, TotalsFound(s, t), t, u);
  }

  lemma LapsedGrows(s: State, t: Tid, u: User)
    requires Enabled(s, FindTotals(t)) && s.tasks[t].user !in s.b.totals
    ensures Lapsed(TotalsFound(s, t), u) == if s.tasks[t].user == u then Plus(Lapsed(s, u), s.tasks[t].whole) else Lapsed(s, u)
  {
  }

  lemma BytesPlus(a: Vec, b: Vec)
    ensures Bytes(Plus(a, b)) == Bytes(a) + Bytes(b)
  {
  }

  lemma LapsedBytes(s: State, t: Tid, u: User)
    requires Enabled(s, FindTotals(t)) && s.tasks[t].user !in s.b.totals
    ensures Bytes(Lapsed(TotalsFound(s, t), u)) == Bytes(Lapsed(s, u)) + DueBy(s.tasks[t], u)
  {
    LapsedGrows(s, t, u);
    BytesPlus(Lapsed(s, u), s.tasks[t].whole);
  }

  lemma LapsedAccounted(s: State, t: Tid, u: User)
    requires Enabled(s, FindTotals(t)) && s.tasks[t].user !in s.b.totals
    ensures Accounted(TotalsFound(s, t), u) == Accounted(s, u)
  {
    FindMoves(s, t);
    LapsedBytes(s, t, u);
    TaskAccounted(s, TotalsFound(s, t), t, u);
  }

  /** What leaves the call reaches the totals; tunnels are no bytes. */
  lemma ChargedBytes(b: Books, v: User, k: Kind, due: Vec, u: User)
    requires v in b.totals
    ensures G(Charged(b, v, k, due.Get(k)).added, u) + DueBy(Charging(v, due.Set(k, 0)), u)
         == G(b.added, u) + DueBy(Charging(v, due), u)
  {
  }

  lemma ChargeMoves(s: State, t: Tid, k: Kind)
    requires Enabled(s, AddTotal(t, k))
    ensures var w, s' := s.tasks[t], TotalAdded(s, t, k);
            && s'.b == Charged(s.b, w.user, k, w.due.Get(k)) && s'.uncharged == s.uncharged
            && t in s'.tasks && s'.tasks == s.tasks[t := s'.tasks[t]] && s'.tasks[t] == Charging(w.user, w.due.Set(k, 0))
  {
  }

  lemma ChargeAccounted(s: State, t: Tid, k: Kind, u: User)
    requires Enabled(s, AddTotal(t, k))
    ensures Accounted(TotalAdded(s, t, k), u) == Accounted(s, u)
  {
    var w := s.tasks[t];
    ChargeMoves(s, t, k);
    assert w == Charging(w.user, w.due);
    ChargedBytes(s.b, w.user, k, w.due, u);
    TaskAccounted(s, TotalAdded(s, t, k), t, u);
  }

  lemma PlaceAccounted(s: State, t: Tid, v: User, c: Conn, e: Eid, u: User)
    requires t !in s.tasks
    ensures Accounted(Placed(s, t, v, c, e), u) == Accounted(s, u)
  {
    HeldAccounted(s, Placed(s, t, v, c, e), t, u);
  }

  lemma CreateAccounted(s: State, t: Tid, u: User)
    requires Enabled(s, CreateTotals(t))
    ensures Accounted(Created(s, t), u) == Accounted(s, u)
  {
    assert Created(s, t).b.added == s.b.added;
    HeldAccounted(s, Created(s, t), t, u);
  }

  lemma UnregisterAccounted(s: State, h: Tid, u: User)
    requires Enabled(s, Unregister(h))
    ensures Accounted(Unlisted(s, h), u) == Accounted(s, u)
  {
    HeldAccounted(s, Unlisted(s, h), h, u);
  }

  lemma EnterAccounted(s: State, t: Tid, k: Kind, u: User)
    requires Enabled(s, AddEntry(t, k))
    ensures Accounted(EntryAdded(s, t, k), u) == Accounted(s, u)
  {
    HeldAccounted(s, EntryAdded(s, t, k), t, u);
  }

  lemma AddedKept(b: Books, a: Act)
    requires Can(b, a) && !a.Charge?
    ensures Do(b, a).added == b.added
  {
  }

  lemma IdleAccounted(s: State, s': State, u: User)
    requires s'.tasks == s.tasks && s'.uncharged == s.uncharged && s'.b.added == s.b.added
    ensures Accounted(s', u) == Accounted(s, u)
  {
  }

  lemma KeepAccounted(s: State, a: Act, u: User)
    requires Enabled(s, Keep(a))
    ensures Accounted(Next(s, Keep(a)), u) == Accounted(s, u)
  {
    AddedKept(s.b, a);
    var b' := Do(s.b, a);
    IdleAccounted(s, s.(b := b'), u);
  }

  lemma ResetAccounted(s: State, ev: Event, u: User)
    requires Enabled(s, ev) && (ev.ResetBegin? || ev.ResetStore?)
    ensures Accounted(Next(s, ev), u) == Accounted(s, u)
  {
    StepOfBooks(s, ev);
    if ActOf(s, ev).Some? {
      AddedKept(s.b, ActOf(s, ev).value);
    }
    IdleAccounted(s, Next(s, ev), u);
  }

  lemma SweepAccounted(s: State, ev: Event, u: User)
    requires Enabled(s, ev) && (ev.SweepBegin? || ev.SweepOne? || ev.SweepEnd?)
    ensures Accounted(Next(s, ev), u) == Accounted(s, u)
  {
    IdleAccounted(s, Next(s, ev), u);
  }

  lemma StepAccounted(s: State, ev: Event, u: User)
    requires Enabled(s, ev)
    ensures Accounted(Next(s, ev), u) == Accounted(s, u) + GivenAt(s, ev, u)
  {
    match ev
    case StartCount(t, h, k, n) => StartAccounted(s, t, h, k, n, u);
    case FindTotals(t) => if s.tasks[t].user in s.b.totals { FoundAccounted(s, t, u); } else { LapsedAccounted(s, t, u); }
    case AddTotal(t, k) => ChargeAccounted(s, t, k, u);
    case PlaceEntry(t, v, c, e) => PlaceAccounted(s, t, v, c, e, u);
    case CreateTotals(t) => CreateAccounted(s, t, u);
    case Unregister(h) => UnregisterAccounted(s, h, u);
    case AddEntry(t, k) => EnterAccounted(s, t, k, u);
    case Keep(a) => KeepAccounted(s, a, u);
    case ResetBegin(_) => ResetAccounted(s, ev, u);
    case ResetStore => ResetAccounted(s, ev, u);
    case _ => SweepAccounted(s, ev, u);
  }

  /** In every run, what was given to the calls for `u` is what reached the totals, plus what running calls still
      hold, plus what went uncharged. */
  lemma {:induction false} GivenIsAccounted(tr: seq<State>, es: seq<Event>, db0: map<User, nat>, u: User, i: nat)
    requires IsRun(tr, es, db0) && i < |tr|
    ensures Given(tr, es, u, i) == Accounted(tr[i], u)
  {
    if i == 0 {
      assert Due(tr[0].tasks, u) == map[];
    } else {
      var m := i - 1;
      GivenIsAccounted(tr, es, db0, u, m);
      StepAccounted(tr[m], es[m], u);
      assert tr[i] == Next(tr[m], es[m]);
    }
  }

  /** Main result: every byte given for `u`, together with what the store began with, is in exactly one place:
      with its call, uncharged, not yet flushed, being cleared, in flight, stored, lost or wiped. */
  lemma BytesConserved(tr: seq<State>, es: seq<Event>, db0: map<User, nat>, u: User, i: nat)
    requires IsRun(tr, es, db0) && i < |tr|
    ensures var s := tr[i];
            G(db0, u) + Given(tr, es, u, i)
            == SumValues(Due(s.tasks, u)) + Bytes(Lapsed(s, u)) + Unflushed(s.b, u) + Clearing(s.b, u) + InFlight(s.b, u)
               + G(s.b.db, u) + G(s.b.lost, u) + G(s.b.wiped, u)
  {
    GivenIsAccounted(tr, es, db0, u, i);
    TrafficConservation(tr, es, db0, u, i);
  }
}
