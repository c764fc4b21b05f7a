/** The step models against the sequential methods: one undisturbed run of the steps does what the method's
    contract says. This part is about the flusher. */
module FlushRuns {
  import opened Ledger
  import T = Tracker

  ghost predicate Steps(bs: seq<Books>, acts: seq<Act>) {
    && |bs| == |acts| + 1
    && forall i | 0 <= i < |acts| :: Can(bs[i], acts[i]) && bs[i + 1] == Do(bs[i], acts[i])
  }

  lemma Extended(bs: seq<Books>, acts: seq<Act>, a: Act) returns (bs': seq<Books>, acts': seq<Act>)
    requires Steps(bs, acts) && Can(bs[|acts|], a)
    ensures Steps(bs', acts') && bs'[0] == bs[0] && acts' == acts + [a] && bs'[|acts'|] == Do(bs[|acts|], a)
  {
    bs', acts' := bs + [Do(bs[|acts|], a)], acts + [a];
    forall i | 0 <= i < |acts'| ensures Can(bs'[i], acts'[i]) && bs'[i + 1] == Do(bs'[i], acts'[i]) {
      if i < |acts| {
        assert bs'[i] == bs[i] && bs'[i + 1] == bs[i + 1] && acts'[i] == acts[i];
      }
    }
  }

  /** A step of the flusher itself. */
  predicate OfFlusher(a: Act) {
    a.BeginFlush? || a.Load? || a.Take? || a.EndFlush? || a.Deliver?
  }

  ghost predicate Undisturbed(acts: seq<Act>) {
    forall i | 0 <= i < |acts| :: OfFlusher(acts[i])
  }

  function Delta(o: Tot): nat {
    if o.n.inb + o.n.outb > o.flushed then o.n.inb + o.n.outb - o.flushed else 0
  }

  function CaughtUp(o: Tot): Tot {
    o.(flushed := o.flushed + Delta(o))
  }

  function DeltaIn(totals: map<User, Tot>, u: User): nat {
    if u in totals then Delta(totals[u]) else 0
  }

  /** Half way through the scan of `totals`: the users not in `todo` have been visited. */
  ghost predicate Scanning(b: Books, totals: map<User, Tot>) {
    && b.lock.Scan? && b.lock.todo <= totals.Keys == b.totals.Keys
    && (forall u | u in totals :: b.totals[u] == if u in b.lock.todo then totals[u] else CaughtUp(totals[u]))
    && (forall u: User :: DeltaSum(b.lock.pend, u) == if u in b.lock.todo then 0 else DeltaIn(totals, u))
  }

  /** Nothing but the totals and the mutex has moved. */
  ghost predicate SameStore(b: Books, b': Books) {
    b'.db == b.db && b'.delivering == b.delivering
  }

  /** The effect of visiting one user. */
  lemma Visited(b: Books, v: User)
    requires b.lock.Scan? && v in b.lock.todo && v in b.totals
    ensures Can(b, Load(v)) && Can(Do(b, Load(v)), Take)
    ensures var c, d := Do(Do(b, Load(v)), Take), Delta(b.totals[v]);
            && c.lock == Scan(b.lock.todo - {v}, if d > 0 then b.lock.pend + [Pending(v, d)] else b.lock.pend)
            && c.totals == b.totals[v := CaughtUp(b.totals[v])] && SameStore(b, c)
  {
  }

  lemma VisitOne(b: Books, totals: map<User, Tot>, v: User)
    requires Scanning(b, totals) && v in b.lock.todo
    ensures Can(b, Load(v)) && Can(Do(b, Load(v)), Take)
    ensures var c := Do(Do(b, Load(v)), Take);
            Scanning(c, totals) && c.lock.todo == b.lock.todo - {v} && SameStore(b, c)
  {
    Visited(b, v);
    var c := Do(Do(b, Load(v)), Take);
    var d := Delta(totals[v]);
    forall u: User ensures DeltaSum(c.lock.pend, u) == DeltaSum(b.lock.pend, u) + if u == v then d else 0 {
      DeltaSumAppend(b.lock.pend, Pending(v, d), u);
    }
  }

  lemma {:induction false} ScanAll(bs: seq<Books>, acts: seq<Act>, totals: map<User, Tot>)
    returns (bs': seq<Books>, acts': seq<Act>)
    requires Steps(bs, acts) && Undisturbed(acts) && Scanning(bs[|acts|], totals)
    ensures Steps(bs', acts') && Undisturbed(acts') && bs'[0] == bs[0]
    ensures Scanning(bs'[|acts'|], totals) && bs'[|acts'|].lock.todo == {} && SameStore(bs[|acts|], bs'[|acts'|])
    decreases bs[|acts|].lock.todo
  {
    bs', acts' := bs, acts;
    if bs[|acts|].lock.todo != {} {
      var v :| v in bs[|acts|].lock.todo;
      VisitOne(bs[|acts|], totals, v);
      bs', acts' := Extended(bs, acts, Load(v));
      bs', acts' := Extended(bs', acts', Take);
      bs', acts' := ScanAll(bs', acts', totals);
    }
  }

  /** The store after delivering `ps`, the writes for the users in `good` succeeding. */
  ghost predicate DeliveredTo(db: map<User, nat>, ps: seq<Pending>, good: set<User>, db': map<User, nat>) {
    db'.Keys == db.Keys && forall u | u in db :: db'[u] == db[u] + if u in good then DeltaSum(ps, u) else 0
  }

  lemma {:induction false} DeliverAll(bs: seq<Books>, acts: seq<Act>, good: set<User>)
    returns (bs': seq<Books>, acts': seq<Act>)
    requires Steps(bs, acts) && Undisturbed(acts)
    ensures Steps(bs', acts') && Undisturbed(acts') && bs'[0] == bs[0]
    ensures var b, b' := bs[|acts|], bs'[|acts'|];
            b'.delivering == [] && b'.lock == b.lock && b'.totals == b.totals && DeliveredTo(b.db, b.delivering, good, b'.db)
    decreases bs[|acts|].delivering
  {
    bs', acts' := bs, acts;
    var b := bs[|acts|];
    if b.delivering != [] {
      bs', acts' := Extended(bs, acts, Deliver(b.delivering[0].user in good));
      bs', acts' := DeliverAll(bs', acts', good);
    }
  }

  /** From rest, an undisturbed flush brings every watermark up and adds each delta to its row where the write
      succeeds. */
  lemma FlushAll(b: Books, good: set<User>) returns (bs: seq<Books>, acts: seq<Act>)
    requires b.lock.Free? && b.delivering == []
    ensures Steps(bs, acts) && Undisturbed(acts) && bs[0] == b
    ensures var b' := bs[|acts|];
            && b'.lock.Free? && b'.delivering == []
            && b'.totals.Keys == b.totals.Keys && (forall u | u in b.totals :: b'.totals[u] == CaughtUp(b.totals[u]))
            && b'.db.Keys == b.db.Keys
            && (forall u | u in b.db :: b'.db[u] == b.db[u] + if u in good then DeltaIn(b.totals, u) else 0)
  {
    bs, acts := Extended([b], [], BeginFlush);
    bs, acts := ScanAll(bs, acts, b.totals);
    ghost var pend := bs[|acts|].lock.pend;
    bs, acts := Extended(bs, acts, EndFlush);
    bs, acts := DeliverAll(bs, acts, good);
  }

  // ---------------------------------------------------------------- against the method

  function TotOf(t: T.Totals): Tot {
    Tot(Vec(t.bytesIn, t.bytesOut, t.totalTunnels), t.flushedBytes)
  }

  /** The books show the tracker's totals and the store's rows. */
  ghost predicate Shows(b: Books, totals: map<User, T.Totals>, used: map<User, nat>) {
    b.db == used && b.totals.Keys == totals.Keys && forall u | u in totals :: b.totals[u] == TotOf(totals[u])
  }

  /** Main result: every outcome that the contract of `FlushOnce` allows is reached by an undisturbed run of the
      flusher's atomic steps. */
  lemma FlushOnceSteps(b: Books, totals: map<User, T.Totals>, used: map<User, nat>,
                       totals': map<User, T.Totals>, used': map<User, nat>)
    returns (bs: seq<Books>, acts: seq<Act>)
    requires b.lock.Free? && b.delivering == [] && Shows(b, totals, used) && T.Flushed(totals, used, totals', used')
    ensures Steps(bs, acts) && Undisturbed(acts) && bs[0] == b
    ensures bs[|acts|].lock.Free? && bs[|acts|].delivering == [] && Shows(bs[|acts|], totals', used')
  {
    var good := set u | u in used && used'[u] == used[u] + T.DeltaOf(totals, u);
    bs, acts := FlushAll(b, good);
    var b' := bs[|acts|];
    forall u | u in used ensures b'.db[u] == used'[u] {
      assert DeltaIn(b.totals, u) == T.DeltaOf(totals, u);
    }
    assert b'.db == used';
  }
}
