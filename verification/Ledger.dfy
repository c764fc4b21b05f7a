/** The accounting books of the tracker: lifetime totals with their flush watermark, the flusher, traffic
    resets and the user store, one atomic operation at a time. The mutex `totalsMu` is modelled by the
    local state of the goroutine that holds it. Counters are unbounded naturals. */
module Ledger {
  import T = Tracker

  type User = T.User

  datatype Kind = In | Out | Tunnels

  datatype Vec = Vec(inb: nat, outb: nat, tun: nat) {
    function Get(k: Kind): nat {
      match k case In => inb case Out => outb case Tunnels => tun
    }
    function Set(k: Kind, n: nat): Vec {
      match k case In => this.(inb := n) case Out => this.(outb := n) case Tunnels => this.(tun := n)
    }
  }

  const Zero := Vec(0, 0, 0)

  datatype Tot = Tot(n: Vec, flushed: nat)
  datatype Pending = Pending(user: User, delta: nat)

  datatype Lock =
    | Free
    | Scan(todo: set<User>, pend: seq<Pending>)                             // flusher, between users
    | Loaded(user: User, inVal: nat, todo: set<User>, pend: seq<Pending>)   // flusher, one counter read
    | Wipe(user: User, phase: nat, taken: nat)                               // reset, `phase` counters zeroed

  /** `added`, `lost` and `wiped` are history: bytes charged, lost to failed writes, removed by resets. */
  datatype Books = Books(totals: map<User, Tot>, lock: Lock, delivering: seq<Pending>, db: map<User, nat>,
                         added: map<User, nat>, lost: map<User, nat>, wiped: map<User, nat>)

  datatype Act =
    | Create(u: User)
    | Charge(u: User, k: Kind, n: nat)
    | BeginReset(u: User)
    | StoreZero
    | BeginFlush
    | Load(u: User)
    | Take
    | EndFlush
    | Deliver(ok: bool)
    | RowAdd(u: User)
    | RowReset(u: User)
    | RowDelete(u: User)

  function G(m: map<User, nat>, u: User): nat {
    if u in m then m[u] else 0
  }

  function Raise(m: map<User, nat>, u: User, n: nat): map<User, nat> {
    m[u := G(m, u) + n]
  }

  function Total(b: Books, u: User): Tot {
    if u in b.totals then b.totals[u] else Tot(Zero, 0)
  }

  function Opening(db0: map<User, nat>): Books {
    Books(map[], Free, [], db0, map[], map[], map[])
  }

  predicate Can(b: Books, a: Act) {
    match a
    case Create(u) => b.lock.Free?
    case Charge(u, k, n) => u in b.totals
    case BeginReset(u) => b.lock.Free? && u in b.totals
    case StoreZero => b.lock.Wipe? && b.lock.phase < 3 && b.lock.user in b.totals
    case BeginFlush => b.lock.Free? && b.delivering == []
    case Load(u) => b.lock.Scan? && u in b.lock.todo && u in b.totals
    case Take => b.lock.Loaded? && b.lock.user in b.totals
    case EndFlush => b.lock.Scan? && b.lock.todo == {}
    case Deliver(ok) => b.delivering != []
    case RowAdd(u) => u !in b.db
    case RowReset(u) => u in b.db
    case RowDelete(u) => true
  }

  function Charged(b: Books, u: User, k: Kind, n: nat): Books
    requires u in b.totals
  {
    var o := b.totals[u];
    b.(totals := b.totals[u := o.(n := o.n.Set(k, o.n.Get(k) + n))],
       added := if k.Tunnels? then b.added else Raise(b.added, u, n))
  }

  /** The three stores of a reset: bytes in, bytes out, watermark; the last one releases the mutex. */
  function Zeroed(b: Books): Books
    requires Can(b, StoreZero)
  {
    var l := b.lock;
    var o := b.totals[l.user];
    if l.phase == 0 then
      b.(totals := b.totals[l.user := o.(n := o.n.Set(In, 0))], lock := l.(phase := 1, taken := l.taken + o.n.inb))
    else if l.phase == 1 then
      b.(totals := b.totals[l.user := o.(n := o.n.Set(Out, 0))], lock := l.(phase := 2, taken := l.taken + o.n.outb))
    else
      b.(totals := b.totals[l.user := o.(flushed := 0)], lock := Free,
         wiped := Raise(b.wiped, l.user, if l.taken > o.flushed then l.taken - o.flushed else 0))
  }

  /** Second half of the flusher's visit to a user: the two counters were read at different moments. */
  function Taken(b: Books): Books
    requires Can(b, Take)
  {
    var l := b.lock;
    var o := b.totals[l.user];
    var total := l.inVal + o.n.outb;
    if total > o.flushed then
      b.(totals := b.totals[l.user := o.(flushed := total)],
         lock := Scan(l.todo, l.pend + [Pending(l.user, total - o.flushed)]))
    else b.(lock := Scan(l.todo, l.pend))
  }

  /** A store write: it can fail, and for a missing row it succeeds without effect. Both lose the delta. */
  function Delivered(b: Books, ok: bool): Books
    requires b.delivering != []
  {
    var p := b.delivering[0];
    if ok && p.user in b.db
    then b.(delivering := b.delivering[1..], db := Raise(b.db, p.user, p.delta))
    else b.(delivering := b.delivering[1..], lost := Raise(b.lost, p.user, p.delta))
  }

  function Do(b: Books, a: Act): Books
    requires Can(b, a)
  {
    match a
    case Create(u) => b.(totals := if u in b.totals then b.totals else b.totals[u := Tot(Zero, 0)])
    case Charge(u, k, n) => Charged(b, u, k, n)
    case BeginReset(u) => b.(lock := Wipe(u, 0, 0))
    case StoreZero => Zeroed(b)
    case BeginFlush => b.(lock := Scan(b.totals.Keys, []))
    case Load(u) => b.(lock := Loaded(u, b.totals[u].n.inb, b.lock.todo - {u}, b.lock.pend))
    case Take => Taken(b)
    case EndFlush => b.(lock := Free, delivering := b.lock.pend)
    case Deliver(ok) => Delivered(b, ok)
    case RowAdd(u) => b.(db := b.db[u := 0])
    case RowReset(u) => b.(db := b.db[u := 0], wiped := Raise(b.wiped, u, b.db[u]))
    case RowDelete(u) => b.(db := b.db - {u}, wiped := Raise(b.wiped, u, G(b.db, u)))
  }

  ghost function DeltaSum(ps: seq<Pending>, u: User): nat {
    if ps == [] then 0 else (if ps[0].user == u then ps[0].delta else 0) + DeltaSum(ps[1..], u)
  }

  lemma {:induction false} DeltaSumAppend(ps: seq<Pending>, p: Pending, u: User)
    ensures DeltaSum(ps + [p], u) == DeltaSum(ps, u) + if p.user == u then p.delta else 0
  {
    if ps != [] {
      DeltaSumAppend(ps[1..], p, u);
      assert (ps + [p])[1..] == ps[1..] + [p];
    }
  }

  /** Deltas the flusher has taken out of the totals and not yet delivered to the store. */
  ghost function InFlight(b: Books, u: User): nat {
    DeltaSum(b.delivering, u) + if b.lock.Scan? || b.lock.Loaded? then DeltaSum(b.lock.pend, u) else 0
  }

  /** Bytes a running reset has already cleared from the totals of `u`. */
  ghost function Clearing(b: Books, u: User): nat {
    if b.lock.Wipe? && b.lock.user == u then b.lock.taken else 0
  }

  ghost function Unflushed(b: Books, u: User): int {
    Total(b, u).n.inb + Total(b, u).n.outb - Total(b, u).flushed
  }

  ghost predicate MarkBelow(o: Tot) {
    o.flushed <= o.n.inb + o.n.outb
  }

  /** The flush watermark never overtakes the bytes counted; a running reset lowers it last. */
  ghost predicate Marks(b: Books) {
    && (forall u | u in b.totals && !(b.lock.Wipe? && b.lock.user == u) :: MarkBelow(b.totals[u]))
    && (b.lock.Wipe? ==>
          && b.lock.user in b.totals
          && var o := b.totals[b.lock.user];
             && b.lock.phase <= 2
             && (b.lock.phase == 0 ==> b.lock.taken == 0 && MarkBelow(o))
             && (b.lock.phase == 1 ==> o.flushed <= b.lock.taken + o.n.outb)
             && (b.lock.phase == 2 ==> o.flushed <= b.lock.taken))
    && (b.lock.Scan? || b.lock.Loaded? ==> b.delivering == [])
    && (b.lock.Loaded? ==> b.lock.user in b.totals && b.lock.inVal <= b.totals[b.lock.user].n.inb)
  }

  /** Every byte charged to `u` is in exactly one place. */
  ghost predicate Conserved(b: Books, db0: map<User, nat>, u: User) {
    G(db0, u) + G(b.added, u)
    == Unflushed(b, u) + Clearing(b, u) + InFlight(b, u) + G(b.db, u) + G(b.lost, u) + G(b.wiped, u)
  }

  lemma ChargedMarks(b: Books, u: User, k: Kind, n: nat)
    requires Marks(b) && u in b.totals
    ensures Marks(Charged(b, u, k, n))
  {
  }

  lemma ZeroedMarks(b: Books)
    requires Marks(b) && Can(b, StoreZero)
    ensures Marks(Zeroed(b))
  {
  }

  lemma TakenMarks(b: Books)
    requires Marks(b) && Can(b, Take)
    ensures Marks(Taken(b))
  {
  }

  lemma DoMarks(b: Books, a: Act)
    requires Marks(b) && Can(b, a)
    ensures Marks(Do(b, a))
  {
    match a
    case Charge(u, k, n) => ChargedMarks(b, u, k, n);
    case StoreZero => ZeroedMarks(b);
    case Take => TakenMarks(b);
    case _ =>
  }

  lemma ChargedConserved(b: Books, v: User, k: Kind, n: nat, db0: map<User, nat>, u: User)
    requires v in b.totals && Conserved(b, db0, u)
    ensures Conserved(Charged(b, v, k, n), db0, u)
  {
  }

  /** What each of the three stores takes out of the totals is being cleared, and the last one books it as wiped. */
  lemma ZeroedParts(b: Books)
    requires Can(b, StoreZero)
    ensures var c, l, o := Zeroed(b), b.lock, b.totals[b.lock.user];
            && l.user in c.totals
            && match l.phase
               case 0 => c.totals[l.user] == o.(n := o.n.Set(In, 0)) && c.lock == Wipe(l.user, 1, l.taken + o.n.inb) && c.wiped == b.wiped
               case 1 => c.totals[l.user] == o.(n := o.n.Set(Out, 0)) && c.lock == Wipe(l.user, 2, l.taken + o.n.outb) && c.wiped == b.wiped
               case _ => c.totals[l.user] == o.(flushed := 0) && c.lock.Free?
                         && c.wiped == Raise(b.wiped, l.user, if l.taken > o.flushed then l.taken - o.flushed else 0)
  {
  }

  lemma ZeroedBalance(b: Books)
    requires Marks(b) && Can(b, StoreZero)
    ensures var c, u := Zeroed(b), b.lock.user;
            Unflushed(c, u) + Clearing(c, u) + G(c.wiped, u) == Unflushed(b, u) + Clearing(b, u) + G(b.wiped, u)
  {
    ZeroedParts(b);
  }

  lemma ZeroedConserved(b: Books, db0: map<User, nat>, u: User)
    requires Marks(b) && Can(b, StoreZero) && Conserved(b, db0, u)
    ensures Conserved(Zeroed(b), db0, u)
  {
    var c := Zeroed(b);
    assert InFlight(c, u) == InFlight(b, u);
    if u == b.lock.user {
      ZeroedBalance(b);
    } else {
      assert Total(c, u) == Total(b, u) && Clearing(c, u) == Clearing(b, u) && G(c.wiped, u) == G(b.wiped, u);
    }
  }

  lemma TakenParts(b: Books, u: User)
    requires Can(b, Take)
    ensures var l, c, o := b.lock, Taken(b), b.totals[b.lock.user];
            var d := if l.user == u && l.inVal + o.n.outb > o.flushed then l.inVal + o.n.outb - o.flushed else 0;
            InFlight(c, u) == InFlight(b, u) + d && Unflushed(c, u) == Unflushed(b, u) - d
  {
    var l, o := b.lock, b.totals[b.lock.user];
    var total := l.inVal + o.n.outb;
    if total > o.flushed {
      DeltaSumAppend(l.pend, Pending(l.user, total - o.flushed), u);
    }
  }

  lemma TakenConserved(b: Books, db0: map<User, nat>, u: User)
    requires Can(b, Take) && Conserved(b, db0, u)
    ensures Conserved(Taken(b), db0, u)
  {
    TakenParts(b, u);
  }

  lemma DeliveredConserved(b: Books, ok: bool, db0: map<User, nat>, u: User)
    requires b.delivering != [] && Conserved(b, db0, u)
    ensures Conserved(Delivered(b, ok), db0, u)
  {
  }

  lemma RowConserved(b: Books, a: Act, db0: map<User, nat>, u: User)
    requires (a.RowAdd? || a.RowReset? || a.RowDelete?) && Can(b, a) && Conserved(b, db0, u)
    ensures Conserved(Do(b, a), db0, u)
  {
    var c := Do(b, a);
    assert InFlight(c, u) == InFlight(b, u) && Unflushed(c, u) == Unflushed(b, u) && Clearing(c, u) == Clearing(b, u);
    assert G(c.db, u) + G(c.wiped, u) == G(b.db, u) + G(b.wiped, u);
  }

  lemma LockConserved(b: Books, a: Act, db0: map<User, nat>, u: User)
    requires (a.Create? || a.BeginReset? || a.BeginFlush? || a.Load? || a.EndFlush?) && Can(b, a)
    requires Marks(b) && Conserved(b, db0, u)
    ensures Conserved(Do(b, a), db0, u)
  {
    var c := Do(b, a);
    assert Unflushed(c, u) == Unflushed(b, u) && Clearing(c, u) == Clearing(b, u);
    assert InFlight(c, u) == InFlight(b, u);
  }

  lemma DoConserved(b: Books, a: Act, db0: map<User, nat>, u: User)
    requires Marks(b) && Can(b, a) && Conserved(b, db0, u)
    ensures Conserved(Do(b, a), db0, u)
  {
    match a
    case Charge(v, k, n) => ChargedConserved(b, v, k, n, db0, u);
    case StoreZero => ZeroedConserved(b, db0, u);
    case Take => TakenConserved(b, db0, u);
    case Deliver(ok) => DeliveredConserved(b, ok, db0, u);
    case RowAdd(_) => RowConserved(b, a, db0, u);
    case RowReset(_) => RowConserved(b, a, db0, u);
    case RowDelete(_) => RowConserved(b, a, db0, u);
    case _ => LockConserved(b, a, db0, u);
  }
}
