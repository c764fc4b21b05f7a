/** When the store falls short of what was counted, told by the events of a run. */
module StoreLoss {
  import opened Ledger
  import opened Traffic

  /** A store write for `u` that fails, or that finds no row. */
  predicate Loses(b: Books, a: Act, u: User) {
    a.Deliver? && b.delivering != [] && b.delivering[0].user == u && !(a.ok && u in b.db)
  }

  /** A reset or deletion for `u` that finds bytes: in the row, or not yet flushed. */
  predicate Wipes(b: Books, a: Act, u: User) {
    || ((a.RowReset? || a.RowDelete?) && a.u == u && G(b.db, u) > 0)
    || (a.StoreZero? && b.lock.Wipe? && b.lock.user == u && b.lock.phase >= 2 && b.lock.taken > Total(b, u).flushed)
  }

  ghost predicate AllPositive(ps: seq<Pending>) {
    forall i | 0 <= i < |ps| :: ps[i].delta > 0
  }

  /** The flusher takes no empty deltas. */
  ghost predicate Positive(b: Books) {
    AllPositive(b.delivering) && (b.lock.Scan? || b.lock.Loaded? ==> AllPositive(b.lock.pend))
  }

  lemma DoPositive(b: Books, a: Act)
    requires Positive(b) && Can(b, a)
    ensures Positive(Do(b, a))
  {
  }

  lemma DoLost(b: Books, a: Act, u: User)
    requires Positive(b) && Can(b, a)
    ensures G(Do(b, a).lost, u) >= G(b.lost, u)
    ensures G(Do(b, a).lost, u) == G(b.lost, u) <==> !Loses(b, a, u)
  {
  }

  lemma DoWiped(b: Books, a: Act, u: User)
    requires Can(b, a)
    ensures G(Do(b, a).wiped, u) >= G(b.wiped, u)
    ensures G(Do(b, a).wiped, u) == G(b.wiped, u) <==> !Wipes(b, a, u)
  {
  }

  ghost predicate LosesAt(s: State, ev: Event, u: User) {
    Enabled(s, ev) && ActOf(s, ev).Some? && Loses(s.b, ActOf(s, ev).value, u)
  }

  ghost predicate WipesAt(s: State, ev: Event, u: User) {
    Enabled(s, ev) && ActOf(s, ev).Some? && Wipes(s.b, ActOf(s, ev).value, u)
  }

  lemma StepLoss(s: State, ev: Event, u: User)
    requires Enabled(s, ev) && Positive(s.b)
    ensures Positive(Next(s, ev).b)
    ensures G(Next(s, ev).b.lost, u) >= G(s.b.lost, u) && G(Next(s, ev).b.wiped, u) >= G(s.b.wiped, u)
    ensures G(Next(s, ev).b.lost, u) == G(s.b.lost, u) <==> !LosesAt(s, ev, u)
    ensures G(Next(s, ev).b.wiped, u) == G(s.b.wiped, u) <==> !WipesAt(s, ev, u)
  {
    StepOfBooks(s, ev);
    var a := ActOf(s, ev);
    if a.Some? {
      DoPositive(s.b, a.value);
      DoLost(s.b, a.value, u);
      DoWiped(s.b, a.value, u);
    }
  }

  ghost predicate NeverLoses(tr: seq<State>, es: seq<Event>, u: User, i: nat)
    requires i <= |es| < |tr|
  {
    forall k | 0 <= k < i :: !LosesAt(tr[k], es[k], u)
  }

  ghost predicate NeverWipes(tr: seq<State>, es: seq<Event>, u: User, i: nat)
    requires i <= |es| < |tr|
  {
    forall k | 0 <= k < i :: !WipesAt(tr[k], es[k], u)
  }

  lemma NeverStep(tr: seq<State>, es: seq<Event>, u: User, i: nat)
    requires i < |es| < |tr|
    ensures NeverLoses(tr, es, u, i + 1) <==> NeverLoses(tr, es, u, i) && !LosesAt(tr[i], es[i], u)
    ensures NeverWipes(tr, es, u, i + 1) <==> NeverWipes(tr, es, u, i) && !WipesAt(tr[i], es[i], u)
  {
  }

  /** Bytes of `u` are lost if and only if some write for `u` failed or found no row, and wiped if and only if
      some reset or deletion found bytes of `u`. */
  lemma {:induction false} LostIff(tr: seq<State>, es: seq<Event>, db0: map<User, nat>, u: User, i: nat)
    requires IsRun(tr, es, db0) && i < |tr|
    ensures Positive(tr[i].b)
    ensures G(tr[i].b.lost, u) == 0 <==> NeverLoses(tr, es, u, i)
    ensures G(tr[i].b.wiped, u) == 0 <==> NeverWipes(tr, es, u, i)
  {
    if i > 0 {
      var m := i - 1;
      LostIff(tr, es, db0, u, m);
      StepLoss(tr[m], es[m], u);
      NeverStep(tr, es, u, m);
      assert tr[i] == Next(tr[m], es[m]);
    }
  }

  /** Main result: at rest the store is exact if and only if everything is flushed, every write for `u` found
      its row and succeeded, and no reset or deletion found bytes of `u`. */
  lemma StoreIsExactIff(tr: seq<State>, es: seq<Event>, db0: map<User, nat>, u: User, i: nat)
    requires IsRun(tr, es, db0) && i < |tr| && AtRest(tr[i].b)
    ensures G(tr[i].b.db, u) == G(db0, u) + G(tr[i].b.added, u)
            <==> && Unflushed(tr[i].b, u) == 0
                 && NeverLoses(tr, es, u, i) && NeverWipes(tr, es, u, i)
  {
    StoreIsExactAtRest(tr, es, db0, u, i);
    LostIff(tr, es, db0, u, i);
  }

  // ---------------------------------------------------------------- a run that loses bytes

  /** `u` registers on `c` and opens a tunnel. */
  lemma OpenedRun(db0: map<User, nat>, u: User, c: Conn) returns (tr: seq<State>, es: seq<Event>)
    ensures IsRun(tr, es, db0)
    ensures var s := tr[|es|];
            && s.objs == map[0 := Obj(c, u, Vec(0, 0, 1))] && s.cur == map[c := 0] && s.mu.Open? && s.tasks.Keys == {0, 1}
            && s.tasks[0] == Serving(c, true, {In, Out}) && s.b == Opening(db0).(totals := map[u := Tot(Vec(0, 0, 1), 0)])
  {
    tr, es := Extended([Initial(db0)], [], PlaceEntry(0, u, c, 0));
    tr, es := Extended(tr, es, CreateTotals(0));
    tr, es := Extended(tr, es, StartCount(1, 0, Tunnels, 1));
    tr, es := Extended(tr, es, AddEntry(1, Tunnels));
    tr, es := Extended(tr, es, FindTotals(1));
    tr, es := Extended(tr, es, AddTotal(1, Tunnels));
    assert tr[|es|].objs == map[0 := Obj(c, u, Vec(0, 0, 1))];
    assert tr[|es|].b.totals == map[u := Tot(Vec(0, 0, 1), 0)];
  }

  /** Its upward copier counts `n` bytes. */
  lemma CountedRun(db0: map<User, nat>, u: User, c: Conn, n: nat) returns (tr: seq<State>, es: seq<Event>)
    requires n > 0
    ensures IsRun(tr, es, db0)
    ensures tr[|es|].b == Opening(db0).(totals := map[u := Tot(Vec(n, 0, 1), 0)], added := map[u := n])
  {
    tr, es := OpenedRun(db0, u, c);
    tr, es := Extended(tr, es, StartCount(2, 0, In, n));
    tr, es := Extended(tr, es, AddEntry(2, In));
    tr, es := Extended(tr, es, FindTotals(2));
    tr, es := Extended(tr, es, AddTotal(2, In));
    assert tr[|es|].b.totals == map[u := Tot(Vec(n, 0, 1), 0)];
    assert tr[|es|].b.added == map[u := n];
  }

  /** One user's flush, up to the release of the mutex. */
  lemma FlushedOne(b: Books, u: User, n: nat)
    requires b.lock.Free? && b.delivering == [] && b.totals == map[u := Tot(Vec(n, 0, 1), 0)] && n > 0
    ensures Can(b, BeginFlush) && Can(Do(b, BeginFlush), Load(u)) && Can(Do(Do(b, BeginFlush), Load(u)), Take)
    ensures Do(Do(Do(b, BeginFlush), Load(u)), Take)
         == b.(totals := map[u := Tot(Vec(n, 0, 1), n)], lock := Scan({}, [Pending(u, n)]))
  {
    var c := Do(Do(b, BeginFlush), Load(u));
    assert c.lock.todo == {};
    assert c == b.(lock := Loaded(u, n, {}, []));
    assert Do(c, Take).totals == map[u := Tot(Vec(n, 0, 1), n)];
    assert [] + [Pending(u, n)] == [Pending(u, n)];
  }

  /** The flusher takes them out of the totals. */
  lemma TakenRun(db0: map<User, nat>, u: User, c: Conn, n: nat) returns (tr: seq<State>, es: seq<Event>)
    requires n > 0
    ensures IsRun(tr, es, db0)
    ensures tr[|es|].b == Books(map[u := Tot(Vec(n, 0, 1), n)], Free, [Pending(u, n)], db0, map[u := n], map[], map[])
  {
    tr, es := CountedRun(db0, u, c, n);
    FlushedOne(tr[|es|].b, u, n);
    tr, es := Extended(tr, es, Keep(BeginFlush));
    tr, es := Extended(tr, es, Keep(Load(u)));
    tr, es := Extended(tr, es, Keep(Take));
    tr, es := Extended(tr, es, Keep(EndFlush));
  }

  /** The write fails, or finds no row: the counters say flushed, the store is `n` short. */
  lemma LosingRun(db0: map<User, nat>, u: User, c: Conn, n: nat, ok: bool) returns (tr: seq<State>, es: seq<Event>)
    requires n > 0 && (!ok || u !in db0)
    ensures IsRun(tr, es, db0)
    ensures var b := tr[|es|].b;
            AtRest(b) && Unflushed(b, u) == 0 && G(b.wiped, u) == 0 && G(b.added, u) == n && G(b.lost, u) == n && b.db == db0
  {
    tr, es := TakenRun(db0, u, c, n);
    tr, es := Extended(tr, es, Keep(Deliver(ok)));
  }
}
