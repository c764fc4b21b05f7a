/** The step models against the sequential methods: registering, counting and resetting, each as one
    undisturbed run of atomic steps. */
module CallRuns {
  import opened Sums
  import opened Ledger
  import opened Traffic
  import T = Tracker
  import F = FlushRuns

  function ObjOf(c: Conn, e: T.Entry): Obj {
    Obj(c, e.username, Vec(e.bytesIn, e.bytesOut, e.totalTunnels))
  }

  /** The live entries of the step model are the tracker's. */
  ghost predicate ShowsEntries(s: State, entries: map<Conn, T.Entry>) {
    s.cur.Keys == entries.Keys && forall c | c in entries :: s.cur[c] in s.objs && s.objs[s.cur[c]] == ObjOf(c, entries[c])
  }

  ghost predicate ShowsTotals(b: Books, totals: map<User, T.Totals>) {
    b.totals.Keys == totals.Keys && forall u | u in totals :: b.totals[u] == F.TotOf(totals[u])
  }

  ghost predicate Shows(s: State, entries: map<Conn, T.Entry>, totals: map<User, T.Totals>) {
    ShowsEntries(s, entries) && ShowsTotals(s.b, totals)
  }

  /** Both mutexes are free. */
  predicate Idle(s: State) {
    s.mu.Open? && s.b.lock.Free?
  }

  lemma PlacedShows(s: State, ix: T.Index, t: Tid, u: User, c: Conn, e: Eid, addr: string, now: int)
    requires ShowsEntries(s, ix.entries) && e !in s.objs
    ensures ShowsEntries(Placed(s, t, u, c, e), T.Registered(ix, u, c, addr, now).entries)
  {
  }

  lemma CreatedShows(s: State, t: Tid, totals: map<User, T.Totals>, now: int)
    requires Enabled(s, CreateTotals(t)) && ShowsTotals(s.b, totals)
    ensures var s' := Next(s, CreateTotals(t));
            && s'.objs == s.objs && s'.cur == s.cur && s'.mu == s.mu && s'.b.lock.Free? && t in s'.tasks
            && s'.tasks[t] == Serving(s.tasks[t].conn, true, {Tunnels})
            && ShowsTotals(s'.b, T.WithTotals(totals, s.tasks[t].user, now))
  {
  }

  /** `Register`: place the entry, then create the totals. */
  lemma RegisterSteps(s: State, ix: T.Index, totals: map<User, T.Totals>, u: User, c: Conn, addr: string, now: int)
    returns (tr: seq<State>, es: seq<Event>)
    requires Idle(s) && Shows(s, ix.entries, totals)
    ensures Steps(tr, es) && tr[0] == s && Idle(tr[|es|])
    ensures exists h | h in tr[|es|].tasks :: tr[|es|].tasks[h] == Serving(c, true, {Tunnels})
    ensures Shows(tr[|es|], T.Registered(ix, u, c, addr, now).entries, T.WithTotals(totals, u, now))
  {
    var t := Above(s.tasks.Keys);
    var e := Above(s.objs.Keys);
    PlacedShows(s, ix, t, u, c, e, addr, now);
    tr, es := Extended([s], [], PlaceEntry(t, u, c, e));
    CreatedShows(tr[|es|], t, totals, now);
    tr, es := Extended(tr, es, CreateTotals(t));
  }

  /** `Unregister` on the live entries. */
  lemma UnregisterStep(s: State, ix: T.Index, totals: map<User, T.Totals>, u: User, h: Tid)
    requires Shows(s, ix.entries, totals) && Enabled(s, Unregister(h))
    ensures Shows(Unlisted(s, h), T.Unregistered(ix, u, s.tasks[h].conn).entries, totals)
  {
  }

  // ---------------------------------------------------------------- counting

  /** What a call on counter `k` does to its entry: `AddBytes` in one direction, or `TunnelOpened`. */
  function EntryAfter(e: T.Entry, k: Kind, n: nat): T.Entry {
    match k case In => T.EntryPlus(e, n, 0) case Out => T.EntryPlus(e, 0, n) case Tunnels => T.EntryOpened(e)
  }

  function TotalsAfter(totals: map<User, T.Totals>, u: User, k: Kind, n: nat): map<User, T.Totals> {
    match k case In => T.TotalsPlus(totals, u, n, 0) case Out => T.TotalsPlus(totals, u, 0, n) case Tunnels => T.TotalsOpened(totals, u)
  }

  /** The call has put its amount on the entry and is ready to look for totals. */
  ghost predicate Entered(s: State, s': State, t: Tid, u: User, v: Vec) {
    && s'.b == s.b && s'.mu == s.mu && t in s'.tasks && s'.tasks[t].Entering? && s'.tasks[t].user == u
    && s'.tasks[t].left == Zero && s'.tasks[t].whole == v
  }

  lemma EnteredShows(s: State, s': State, entries: map<Conn, T.Entry>, c: Conn, k: Kind, n: nat)
    requires ShowsEntries(s, entries) && c in entries && (k == Tunnels ==> n == 1) && s'.cur == s.cur
    requires var o := s.objs[s.cur[c]]; s'.objs == s.objs[s.cur[c] := o.(n := o.n.Set(k, o.n.Get(k) + n))]
    ensures ShowsEntries(s', entries[c := EntryAfter(entries[c], k, n)])
  {
  }

  /** The first half of a call: find the entry and add to it, unless the amount is zero. */
  lemma EntrySteps(s: State, entries: map<Conn, T.Entry>, h: Tid, k: Kind, n: nat)
    returns (tr: seq<State>, es: seq<Event>, t: Tid)
    requires Idle(s) && ShowsEntries(s, entries) && h in s.tasks && MayCount(s.tasks[h], k, n)
    requires s.tasks[h].conn in entries
    ensures Steps(tr, es) && tr[0] == s && t != h && h in tr[|es|].tasks && tr[|es|].tasks[h] == Used(s.tasks[h], k)
    ensures var c := s.tasks[h].conn;
            && ShowsEntries(tr[|es|], entries[c := EntryAfter(entries[c], k, n)])
            && Entered(s, tr[|es|], t, entries[c].username, Zero.Set(k, n))
  {
    t := Above(s.tasks.Keys);
    tr, es := Extended([s], [], StartCount(t, h, k, n));
    if n > 0 {
      tr, es := Extended(tr, es, AddEntry(t, k));
    }
    EnteredShows(s, tr[|es|], entries, s.tasks[h].conn, k, n);
  }

  lemma ChargedShows(b: Books, b': Books, totals: map<User, T.Totals>, u: User, k: Kind, n: nat)
    requires ShowsTotals(b, totals) && u in totals && (k == Tunnels ==> n == 1)
    requires b'.totals == b.totals[u := b.totals[u].(n := b.totals[u].n.Set(k, b.totals[u].n.Get(k) + n))]
    ensures ShowsTotals(b', TotalsAfter(totals, u, k, n))
  {
  }

  /** The second half: the totals, if the user has any. */
  lemma ChargeSteps(tr: seq<State>, es: seq<Event>, t: Tid, h: Tid, totals: map<User, T.Totals>, u: User, k: Kind, n: nat)
    returns (tr': seq<State>, es': seq<Event>)
    requires Steps(tr, es) && Idle(tr[|es|]) && ShowsTotals(tr[|es|].b, totals) && (k == Tunnels ==> n == 1)
    requires Entered(tr[|es|], tr[|es|], t, u, Zero.Set(k, n)) && h in tr[|es|].tasks && h != t
    ensures Steps(tr', es') && tr'[0] == tr[0] && Idle(tr'[|es'|])
    ensures tr'[|es'|].objs == tr[|es|].objs && tr'[|es'|].cur == tr[|es|].cur
    ensures h in tr'[|es'|].tasks && tr'[|es'|].tasks[h] == tr[|es|].tasks[h]
    ensures ShowsTotals(tr'[|es'|].b, TotalsAfter(totals, u, k, n))
  {
    tr', es' := Extended(tr, es, FindTotals(t));
    if u in totals {
      if n > 0 {
        tr', es' := Extended(tr', es', AddTotal(t, k));
      }
      ChargedShows(tr[|es|].b, tr'[|es'|].b, totals, u, k, n);
    }
  }

  /** `AddBytes` as a copier calls it, with an amount in its direction, or `TunnelOpened`: the entry, then the
      totals if any. */
  lemma AddBytesSteps(s: State, entries: map<Conn, T.Entry>, totals: map<User, T.Totals>, h: Tid, k: Kind, n: nat)
    returns (tr: seq<State>, es: seq<Event>)
    requires Idle(s) && Shows(s, entries, totals) && h in s.tasks && MayCount(s.tasks[h], k, n)
    ensures Steps(tr, es) && tr[0] == s && Idle(tr[|es|]) && h in tr[|es|].tasks && tr[|es|].tasks[h] == Used(s.tasks[h], k)
    ensures var c := s.tasks[h].conn;
            if c !in entries then Shows(tr[|es|], entries, totals)
            else Shows(tr[|es|], entries[c := EntryAfter(entries[c], k, n)], TotalsAfter(totals, entries[c].username, k, n))
  {
    var c := s.tasks[h].conn;
    var t;
    if c in entries {
      tr, es, t := EntrySteps(s, entries, h, k, n);
      tr, es := ChargeSteps(tr, es, t, h, totals, entries[c].username, k, n);
    } else {
      t := Above(s.tasks.Keys);
      tr, es := Extended([s], [], StartCount(t, h, k, n));
    }
  }

  // ---------------------------------------------------------------- a whole stream

  lemma PlusTwice(entries: map<Conn, T.Entry>, totals: map<User, T.Totals>, c: Conn, u: User, n: nat, m: nat)
    requires c in entries
    ensures var e := entries[c := T.EntryPlus(entries[c], n, 0)];
            e[c := T.EntryPlus(e[c], 0, m)] == entries[c := T.EntryPlus(entries[c], n, m)]
    ensures T.TotalsPlus(T.TotalsPlus(totals, u, n, 0), u, 0, m) == T.TotalsPlus(totals, u, n, m)
  {
  }

  /** The two copiers of an open tunnel count once each. */
  lemma CopiersCount(s: State, entries: map<Conn, T.Entry>, totals: map<User, T.Totals>, h: Tid, c: Conn, n: nat, m: nat)
    returns (tr: seq<State>, es: seq<Event>)
    requires Idle(s) && Shows(s, entries, totals) && h in s.tasks && s.tasks[h] == Serving(c, true, {In, Out}) && c in entries
    ensures Steps(tr, es) && tr[0] == s && Idle(tr[|es|])
    ensures h in tr[|es|].tasks && tr[|es|].tasks[h] == Serving(c, true, {})
    ensures Shows(tr[|es|], entries[c := T.EntryPlus(entries[c], n, m)], T.TotalsPlus(totals, entries[c].username, n, m))
  {
    var u := entries[c].username;
    tr, es := AddBytesSteps(s, entries, totals, h, In, n);
    assert {In, Out} - {In} == {Out} && {Out} - {Out} == {};
    var tr2, es2 := AddBytesSteps(tr[|es|], entries[c := T.EntryPlus(entries[c], n, 0)], T.TotalsPlus(totals, u, n, 0), h, Out, m);
    tr, es := Joined(tr, es, tr2, es2);
    PlusTwice(entries, totals, c, u, n, m);
  }

  /** A registered stream can open its tunnel and count any amounts up and down, and has then nothing left to count. */
  lemma StreamCountsAll(s: State, entries: map<Conn, T.Entry>, totals: map<User, T.Totals>, h: Tid, c: Conn, n: nat, m: nat)
    returns (tr: seq<State>, es: seq<Event>)
    requires Idle(s) && Shows(s, entries, totals) && h in s.tasks && s.tasks[h] == Serving(c, true, {Tunnels}) && c in entries
    ensures Steps(tr, es) && tr[0] == s && Idle(tr[|es|])
    ensures h in tr[|es|].tasks && tr[|es|].tasks[h] == Serving(c, true, {})
    ensures var e, u := entries[c], entries[c].username;
            Shows(tr[|es|], entries[c := T.EntryPlus(T.EntryOpened(e), n, m)], T.TotalsPlus(T.TotalsOpened(totals, u), u, n, m))
  {
    var tunnelled := entries[c := T.EntryOpened(entries[c])];
    tr, es := AddBytesSteps(s, entries, totals, h, Tunnels, 1);
    var tr2, es2 := CopiersCount(tr[|es|], tunnelled, T.TotalsOpened(totals, entries[c].username), h, c, n, m);
    tr, es := Joined(tr, es, tr2, es2);
    assert tunnelled[c := T.EntryPlus(tunnelled[c], n, m)] == entries[c := T.EntryPlus(T.EntryOpened(entries[c]), n, m)];
  }

  /** Tunnels come first, and what was counted is not counted again. */
  ghost predicate Spent(s: State, h: Tid, k: Kind) {
    h in s.tasks && s.tasks[h].Serving? && k !in s.tasks[h].ahead && Tunnels !in s.tasks[h].ahead
  }

  ghost predicate Shaped(s: State) {
    forall h | h in s.tasks && s.tasks[h].Serving? :: s.tasks[h].ahead == {Tunnels} || Tunnels !in s.tasks[h].ahead
  }

  lemma ShapedStep(s: State, ev: Event)
    requires Enabled(s, ev) && Shaped(s)
    ensures Shaped(Next(s, ev))
  {
  }

  lemma {:induction false} RunShaped(tr: seq<State>, es: seq<Event>, db0: map<User, nat>, i: nat)
    requires IsRun(tr, es, db0) && i < |tr|
    ensures Shaped(tr[i])
  {
    if i > 0 {
      RunShaped(tr, es, db0, i - 1);
      ShapedStep(tr[i - 1], es[i - 1]);
    }
  }

  lemma SpentStep(s: State, ev: Event, h: Tid, k: Kind)
    requires Enabled(s, ev) && Spent(s, h, k)
    ensures Spent(Next(s, ev), h, k)
  {
  }

  lemma {:induction false} StaysSpent(tr: seq<State>, es: seq<Event>, i: nat, j: nat, h: Tid, k: Kind)
    requires Steps(tr, es) && i <= j < |tr| && Spent(tr[i], h, k)
    ensures Spent(tr[j], h, k)
    decreases j
  {
    if i < j {
      var m := j - 1;
      StaysSpent(tr, es, i, m, h, k);
      SpentStep(tr[m], es[m], h, k);
      assert tr[j] == Next(tr[m], es[m]);
    }
  }

  lemma CountSpends(s: State, ev: Event)
    requires Enabled(s, ev) && ev.StartCount? && Shaped(s)
    ensures Spent(Next(s, ev), ev.h, ev.k)
  {
  }

  /** No stream opens its tunnel or counts a direction twice, in any run. */
  lemma CountsOnce(tr: seq<State>, es: seq<Event>, db0: map<User, nat>, i: nat, j: nat)
    requires IsRun(tr, es, db0) && i < j < |es| && es[i].StartCount? && es[j].StartCount?
    ensures es[i].h != es[j].h || es[i].k != es[j].k
  {
    RunShaped(tr, es, db0, i);
    CountSpends(tr[i], es[i]);
    assert tr[i + 1] == Next(tr[i], es[i]) && Enabled(tr[j], es[j]);
    StaysSpent(tr, es, i + 1, j, es[i].h, es[i].k);
  }

  lemma JoinedStep(tr: seq<State>, es: seq<Event>, tr2: seq<State>, es2: seq<Event>, i: nat)
    requires Steps(tr, es) && Steps(tr2, es2) && tr2[0] == tr[|es|] && i < |es + es2|
    ensures var tr', es' := tr + tr2[1..], es + es2; Enabled(tr'[i], es'[i]) && tr'[i + 1] == Next(tr'[i], es'[i])
  {
    var tr', es' := tr + tr2[1..], es + es2;
    if i < |es| {
      assert tr'[i] == tr[i] && tr'[i + 1] == tr[i + 1] && es'[i] == es[i];
    } else {
      var j := i - |es|;
      assert tr'[i] == tr2[j] && tr'[i + 1] == tr2[j + 1] && es'[i] == es2[j];
    }
  }

  lemma Joined(tr: seq<State>, es: seq<Event>, tr2: seq<State>, es2: seq<Event>) returns (tr': seq<State>, es': seq<Event>)
    requires Steps(tr, es) && Steps(tr2, es2) && tr2[0] == tr[|es|]
    ensures Steps(tr', es') && tr'[0] == tr[0] && tr'[|es'|] == tr2[|es2|]
  {
    tr', es' := tr + tr2[1..], es + es2;
    forall i | 0 <= i < |es'| ensures Enabled(tr'[i], es'[i]) && tr'[i + 1] == Next(tr'[i], es'[i]) {
      JoinedStep(tr, es, tr2, es2, i);
    }
  }

  // ---------------------------------------------------------------- resetting

  /** The three stores clear the counters and the watermark and release the mutex. */
  lemma ZeroedThrice(b: Books, u: User)
    requires b.lock == Wipe(u, 0, 0) && u in b.totals
    ensures Can(b, StoreZero) && Can(Zeroed(b), StoreZero) && Can(Zeroed(Zeroed(b)), StoreZero)
    ensures Zeroed(b).lock.phase == 1 && Zeroed(Zeroed(b)).lock.phase == 2
    ensures var c := Zeroed(Zeroed(Zeroed(b)));
            c.lock.Free? && c.totals == b.totals[u := Tot(Vec(0, 0, b.totals[u].n.tun), 0)]
  {
  }

  lemma WipeSteps(tr: seq<State>, es: seq<Event>, u: User) returns (tr': seq<State>, es': seq<Event>)
    requires Steps(tr, es) && tr[|es|].b.lock == Wipe(u, 0, 0) && u in tr[|es|].b.totals
    ensures Steps(tr', es') && tr'[0] == tr[0]
    ensures var s, s' := tr[|es|], tr'[|es'|];
            && s'.objs == s.objs && s'.cur == s.cur && s'.mu == s.mu && u in s'.awaiting && s'.b == Zeroed(Zeroed(Zeroed(s.b)))
  {
    ZeroedThrice(tr[|es|].b, u);
    tr', es' := Extended(tr, es, ResetStore);
    tr', es' := Extended(tr', es', ResetStore);
    tr', es' := Extended(tr', es', ResetStore);
  }

  lemma ResetShown(b: Books, b': Books, totals: map<User, T.Totals>, u: User)
    requires ShowsTotals(b, totals) && u in totals
    requires b'.totals == b.totals[u := Tot(Vec(0, 0, b.totals[u].n.tun), 0)]
    ensures ShowsTotals(b', T.TotalsReset(totals, u))
  {
  }

  lemma ResetBegun(s: State, u: User)
    requires Idle(s)
    ensures Enabled(s, ResetBegin(u))
    ensures var s' := Next(s, ResetBegin(u));
            && s'.objs == s.objs && s'.cur == s.cur && s'.mu == s.mu && s'.b.totals == s.b.totals
            && (if u in s.b.totals then s'.b.lock == Wipe(u, 0, 0) else s'.b.lock.Free? && u in s'.awaiting)
  {
  }

  /** The three stores under the totals mutex, or none without totals. */
  lemma TotalsResetSteps(s: State, totals: map<User, T.Totals>, u: User) returns (tr: seq<State>, es: seq<Event>)
    requires Idle(s) && ShowsTotals(s.b, totals)
    ensures Steps(tr, es) && tr[0] == s && Idle(tr[|es|])
    ensures tr[|es|].objs == s.objs && tr[|es|].cur == s.cur && u in tr[|es|].awaiting
    ensures ShowsTotals(tr[|es|].b, T.TotalsReset(totals, u))
  {
    ResetBegun(s, u);
    tr, es := Extended([s], [], ResetBegin(u));
    if u in totals {
      ZeroedThrice(tr[|es|].b, u);
      tr, es := WipeSteps(tr, es, u);
      ResetShown(s.b, tr[|es|].b, totals, u);
    }
  }

  function Zeros(n: Vec, i: bool, o: bool): Vec {
    Vec(if i then 0 else n.inb, if o then 0 else n.outb, n.tun)
  }

  /** Only the counters in `todo` have become zero. */
  ghost predicate Swept(objs: map<Eid, Obj>, todo: set<(Eid, Kind)>, objs': map<Eid, Obj>) {
    && objs'.Keys == objs.Keys
    && forall e | e in objs :: objs'[e] == objs[e].(n := Zeros(objs[e].n, (e, In) in todo, (e, Out) in todo))
  }

  lemma {:induction false} SweepAll(tr: seq<State>, es: seq<Event>) returns (tr': seq<State>, es': seq<Event>)
    requires Steps(tr, es) && tr[|es|].mu.Sweep?
    requires forall d | d in tr[|es|].mu.todo :: d.0 in tr[|es|].objs && (d.1 == In || d.1 == Out)
    ensures Steps(tr', es') && tr'[0] == tr[0]
    ensures var s, s' := tr[|es|], tr'[|es'|];
            s'.mu.Sweep? && s'.mu.todo == {} && s'.cur == s.cur && s'.b == s.b && Swept(s.objs, s.mu.todo, s'.objs)
    decreases tr[|es|].mu.todo
  {
    tr', es' := tr, es;
    if tr[|es|].mu.todo != {} {
      var d :| d in tr[|es|].mu.todo;
      tr', es' := Extended(tr, es, SweepOne(d.0, d.1));
      tr', es' := SweepAll(tr', es');
    }
  }

  /** The sweep over the live entries under the other mutex. */
  lemma SweepSteps(s: State, entries: map<Conn, T.Entry>, u: User) returns (tr: seq<State>, es: seq<Event>)
    requires Idle(s) && u in s.awaiting && ShowsEntries(s, entries)
    ensures Steps(tr, es) && tr[0] == s && Idle(tr[|es|]) && tr[|es|].b == s.b
    ensures ShowsEntries(tr[|es|], map c | c in entries :: T.EntryReset(entries[c], u))
  {
    tr, es := Extended([s], [], SweepBegin(u));
    tr, es := SweepAll(tr, es);
    tr, es := Extended(tr, es, SweepEnd);
    var s' := tr[|es|];
    forall c | c in entries ensures s'.objs[s.cur[c]] == ObjOf(c, T.EntryReset(entries[c], u)) {
      SweptCell(s, entries, u, c, In);
      SweptCell(s, entries, u, c, Out);
    }
  }

  /** A sweep visits exactly the counters of the user's live entries. */
  lemma SweptCell(s: State, entries: map<Conn, T.Entry>, u: User, c: Conn, k: Kind)
    requires ShowsEntries(s, entries) && c in entries && k in {In, Out}
    ensures (s.cur[c], k) in LiveCells(s, u) <==> entries[c].username == u
  {
  }

  /** `ResetUserTraffic`: the totals, then the live entries. */
  lemma ResetSteps(s: State, entries: map<Conn, T.Entry>, totals: map<User, T.Totals>, u: User)
    returns (tr: seq<State>, es: seq<Event>)
    requires Idle(s) && Shows(s, entries, totals)
    ensures Steps(tr, es) && tr[0] == s && Idle(tr[|es|])
    ensures Shows(tr[|es|], map c | c in entries :: T.EntryReset(entries[c], u), T.TotalsReset(totals, u))
  {
    tr, es := TotalsResetSteps(s, totals, u);
    var tr2, es2 := SweepSteps(tr[|es|], entries, u);
    tr, es := Joined(tr, es, tr2, es2);
  }
}
