/** Many lookups against one cache and one store: every cache access, clock reading and store query is a
    step, and the store may change between any two of them. */
module AuthRuns {
  import opened Sums
  import opened Tracker
  import opened Credentials
  import opened AuthCache

  type Tid = nat

  /** The world at one moment. */
  datatype Snap = Snap(now: int, store: Store)

  /** When the parts of an account were read: positions in the history. `whole` when every offered optional
      query succeeded. */
  datatype Prov = Prov(start: nat, pwAt: nat, devAt: nat, lifeAt: nat, stamp: nat, whole: bool)

  datatype Cached = Cached(e: CacheEntry, prov: Prov)

  /** Where an answer came from: a fresh entry, the store, an expired entry, or nowhere (store error). */
  datatype Source = FromCache(p: Prov) | FromStore(p: Prov) | FromStale(p: Prov) | Nowhere

  datatype Pc =
    | Peeked(hit: Option<Cached>)
    | Asking(hit: Option<Cached>, start: nat)
    | HavePassword(pw: string, prov: Prov)
    | HaveDevices(pw: string, dev: Option<int>, prov: Prov)
    | HaveAll(acct: Option<Account>, prov: Prov)
    | Stamped(c: Cached)
    | Answered(acct: Option<Account>, src: Source, at: nat)
    | Decided(result: CheckResult, at: nat)

  datatype Task = Task(user: User, password: string, began: nat, pc: Pc)

  /** `hist` lists every state the clock and the store went through; its last element is the present. */
  datatype State = State(hist: seq<Snap>, cache: map<User, Cached>, tasks: map<Tid, Task>) {
    function Here(): nat
      requires hist != []
    {
      |hist| - 1
    }
    function Now(): Snap
      requires hist != []
    {
      hist[|hist| - 1]
    }
  }

  datatype Event =
    | Begin(t: Tid, decoded: string)
    | CheckFresh(t: Tid)
    | AskPassword(t: Tid, fails: bool)
    | AskDevices(t: Tid, fails: bool)
    | AskLife(t: Tid, fails: bool)
    | Stamp(t: Tid)
    | Write(t: Tid)
    | Conclude(t: Tid)
    | Tick(d: nat)
    | Change(store: Store)
    | Invalidate(u: User)
    | InvalidateAll
    | Evict(now: int)

  function Initial(w: Snap): State {
    State([w], map[], map[])
  }

  predicate Busy(s: State, t: Tid) {
    s.hist != [] && t in s.tasks
  }

  predicate Enabled(s: State, ev: Event) {
    match ev
    case Begin(t, decoded) => s.hist != [] && t !in s.tasks && SplitBasic(decoded).Some?
    case CheckFresh(t) => Busy(s, t) && s.tasks[t].pc.Peeked?
    case AskPassword(t, fails) => Busy(s, t) && s.tasks[t].pc.Asking?
    case AskDevices(t, fails) => Busy(s, t) && s.tasks[t].pc.HavePassword?
    case AskLife(t, fails) => Busy(s, t) && s.tasks[t].pc.HaveDevices?
    case Stamp(t) => Busy(s, t) && s.tasks[t].pc.HaveAll?
    case Write(t) => Busy(s, t) && s.tasks[t].pc.Stamped?
    case Conclude(t) => Busy(s, t) && s.tasks[t].pc.Answered?
    case Tick(d) => s.hist != []
    case Change(store) => s.hist != []
    case Invalidate(u) => s.hist != []
    case InvalidateAll => s.hist != []
    case Evict(now) => s.hist != [] && now <= s.Now().now
  }

  /** How one step of a lookup moves its program counter. */
  function Moved(s: State, ev: Event, w: Task, caps: Caps, ttl: int): Pc
    requires s.hist != []
  {
    var here, st := s.Here(), s.Now().store;
    match ev
    case CheckFresh(t) =>
      if w.pc.Peeked? then
        if w.pc.hit.Some? && s.Now().now < w.pc.hit.value.e.exp
        then Answered(w.pc.hit.value.e.acct, FromCache(w.pc.hit.value.prov), here)
        else Asking(w.pc.hit, here)
      else w.pc
    case AskPassword(t, fails) =>
      if !w.pc.Asking? then w.pc
      else if fails then
        if w.pc.hit.Some? && w.pc.hit.value.e.acct.Some?
        then Answered(w.pc.hit.value.e.acct, FromStale(w.pc.hit.value.prov), here)
        else Answered(None, Nowhere, here)
      else
        var p := Prov(w.pc.start, here, here, here, here, true);
        if PasswordOf(st, w.user) == "" then HaveAll(None, p) else HavePassword(PasswordOf(st, w.user), p)
    case AskDevices(t, fails) =>
      if !w.pc.HavePassword? then w.pc
      else if !caps.devices then HaveDevices(w.pc.pw, None, w.pc.prov.(devAt := here, lifeAt := here, stamp := here))
      else HaveDevices(w.pc.pw, if fails then None else Some(DevicesOf(st, w.user)),
                       w.pc.prov.(devAt := here, lifeAt := here, stamp := here, whole := !fails))
    case AskLife(t, fails) =>
      if !w.pc.HaveDevices? then w.pc
      else
        var life := if caps.lifecycle && !fails then Some(LifeOf(st, w.user)) else None;
        HaveAll(Some(Assembled(w.pc.pw, w.pc.dev, life)),
                w.pc.prov.(lifeAt := here, stamp := here, whole := w.pc.prov.whole && !(caps.lifecycle && fails)))
    case Stamp(t) =>
      if !w.pc.HaveAll? then w.pc
      else Stamped(Cached(CacheEntry(w.pc.acct, s.Now().now + ttl), w.pc.prov.(stamp := here)))
    case Write(t) =>
      if !w.pc.Stamped? then w.pc else Answered(w.pc.c.e.acct, FromStore(w.pc.c.prov), here)
    case Conclude(t) =>
      if !w.pc.Answered? then w.pc else Decided(Decide(w.pc.acct, w.user, w.password, s.Now().now), here)
    case _ => w.pc
  }

  predicate Lookup(ev: Event) {
    ev.CheckFresh? || ev.AskPassword? || ev.AskDevices? || ev.AskLife? || ev.Stamp? || ev.Write? || ev.Conclude?
  }

  function Next(s: State, ev: Event, caps: Caps, ttl: int): State
    requires Enabled(s, ev)
  {
    if Lookup(ev) then
      var w := s.tasks[ev.t];
      s.(tasks := s.tasks[ev.t := w.(pc := Moved(s, ev, w, caps, ttl))],
         cache := if ev.Write? then s.cache[w.user := w.pc.c] else s.cache)
    else
      match ev
      case Begin(t, decoded) =>
        var (user, password) := SplitBasic(decoded).value;
        s.(tasks := s.tasks[t := Task(user, password, s.Here(), Peeked(if user in s.cache then Some(s.cache[user]) else None))])
      case Tick(d) => s.(hist := s.hist + [s.Now().(now := s.Now().now + d)])
      case Change(store) => s.(hist := s.hist + [s.Now().(store := store)])
      case Invalidate(u) => s.(cache := s.cache - {u})
      case InvalidateAll => s.(cache := map[])
      case Evict(now) => s.(cache := map u | u in s.cache && now <= s.cache[u].e.exp :: s.cache[u])
      case _ => s
  }

  /** Steps from any state. */
  ghost predicate Steps(tr: seq<State>, es: seq<Event>, caps: Caps, ttl: int) {
    && |tr| == |es| + 1
    && forall i | 0 <= i < |es| :: Enabled(tr[i], es[i]) && tr[i + 1] == Next(tr[i], es[i], caps, ttl)
  }

  ghost predicate IsRun(tr: seq<State>, es: seq<Event>, w: Snap, caps: Caps, ttl: int) {
    Steps(tr, es, caps, ttl) && tr[0] == Initial(w)
  }

  // ---------------------------------------------------------------- provenance

  /** The positions are in order and exist. */
  ghost predicate Ordered(h: seq<Snap>, p: Prov) {
    p.start <= p.pwAt <= p.devAt <= p.lifeAt <= p.stamp < |h|
  }

  /** Every part of `acct` is what the store held at the recorded position. */
  ghost predicate ReadFrom(h: seq<Snap>, caps: Caps, u: User, acct: Option<Account>, p: Prov) {
    && Ordered(h, p)
    && (acct.None? ==> PasswordOf(h[p.pwAt].store, u) == "")
    && (acct.Some? ==> acct.value.password == PasswordOf(h[p.pwAt].store, u) != "")
    && (acct.Some? && p.whole ==>
          && acct.value.maxDevices == (if caps.devices then DevicesOf(h[p.devAt].store, u) else 0)
          && acct.value.life == if caps.lifecycle then Some(LifeOf(h[p.lifeAt].store, u)) else None)
  }

  ghost predicate CachedOk(h: seq<Snap>, caps: Caps, ttl: int, u: User, c: Cached) {
    ReadFrom(h, caps, u, c.e.acct, c.prov) && c.e.exp == h[c.prov.stamp].now + ttl
  }

  ghost predicate PcOk(h: seq<Snap>, caps: Caps, ttl: int, u: User, began: nat, pc: Pc) {
    began < |h| &&
    match pc
    case Peeked(hit) => hit.Some? ==> CachedOk(h, caps, ttl, u, hit.value)
    case Asking(hit, start) => began <= start < |h| && (hit.Some? ==> CachedOk(h, caps, ttl, u, hit.value))
    case HavePassword(pw, p) =>
      began <= p.start && Ordered(h, p) && p.whole && pw == PasswordOf(h[p.pwAt].store, u) != ""
    case HaveDevices(pw, dev, p) =>
      && began <= p.start && Ordered(h, p) && pw == PasswordOf(h[p.pwAt].store, u) != ""
      && (p.whole ==> dev == if caps.devices then Some(DevicesOf(h[p.devAt].store, u)) else None)
    case HaveAll(acct, p) => began <= p.start && ReadFrom(h, caps, u, acct, p)
    case Stamped(c) => began <= c.prov.start && CachedOk(h, caps, ttl, u, c)
    case Answered(acct, src, at) => began <= at < |h| && AnswerOk(h, caps, ttl, u, began, acct, src, at)
    case Decided(result, at) => at < |h|
  }

  ghost predicate AnswerOk(h: seq<Snap>, caps: Caps, ttl: int, u: User, began: nat,
                           acct: Option<Account>, src: Source, at: nat)
    requires at < |h|
  {
    match src
    case FromCache(p) => ReadFrom(h, caps, u, acct, p) && h[at].now < h[p.stamp].now + ttl
    case FromStore(p) => ReadFrom(h, caps, u, acct, p) && began <= p.start && p.stamp <= at
    case FromStale(p) => ReadFrom(h, caps, u, acct, p)
    case Nowhere => acct.None?
  }

  ghost predicate Honest(s: State, caps: Caps, ttl: int) {
    && s.hist != []
    && (forall u | u in s.cache :: CachedOk(s.hist, caps, ttl, u, s.cache[u]))
    && (forall t | t in s.tasks :: PcOk(s.hist, caps, ttl, s.tasks[t].user, s.tasks[t].began, s.tasks[t].pc))
  }

  ghost predicate Monotone(h: seq<Snap>) {
    forall i, j | 0 <= i <= j < |h| :: h[i].now <= h[j].now
  }

  /** Later history does not change what was read. */
  lemma ReadLater(h: seq<Snap>, x: Snap, caps: Caps, u: User, acct: Option<Account>, p: Prov)
    requires ReadFrom(h, caps, u, acct, p)
    ensures ReadFrom(h + [x], caps, u, acct, p)
  {
  }

  lemma CachedLater(h: seq<Snap>, x: Snap, caps: Caps, ttl: int, u: User, c: Cached)
    requires CachedOk(h, caps, ttl, u, c)
    ensures CachedOk(h + [x], caps, ttl, u, c)
  {
    ReadLater(h, x, caps, u, c.e.acct, c.prov);
  }

  lemma PcOkLater(h: seq<Snap>, x: Snap, caps: Caps, ttl: int, u: User, began: nat, pc: Pc)
    requires PcOk(h, caps, ttl, u, began, pc)
    ensures PcOk(h + [x], caps, ttl, u, began, pc)
  {
    match pc
    case Peeked(hit) => if hit.Some? { CachedLater(h, x, caps, ttl, u, hit.value); }
    case Asking(hit, _) => if hit.Some? { CachedLater(h, x, caps, ttl, u, hit.value); }
    case HaveAll(acct, p) => ReadLater(h, x, caps, u, acct, p);
    case Stamped(c) => CachedLater(h, x, caps, ttl, u, c);
    case Answered(acct, src, _) => if !src.Nowhere? { ReadLater(h, x, caps, u, acct, src.p); }
    case _ =>
  }

  lemma MovedOk(s: State, ev: Event, caps: Caps, ttl: int)
    requires Honest(s, caps, ttl) && Lookup(ev) && Enabled(s, ev)
    ensures var w := s.tasks[ev.t]; PcOk(s.hist, caps, ttl, w.user, w.began, Moved(s, ev, w, caps, ttl))
  {
    var w := s.tasks[ev.t];
    assert PcOk(s.hist, caps, ttl, w.user, w.began, w.pc);
  }

  lemma LookupHonest(s: State, ev: Event, caps: Caps, ttl: int)
    requires Honest(s, caps, ttl) && Lookup(ev) && Enabled(s, ev)
    ensures Honest(Next(s, ev, caps, ttl), caps, ttl)
  {
    MovedOk(s, ev, caps, ttl);
    var w := s.tasks[ev.t];
    assert PcOk(s.hist, caps, ttl, w.user, w.began, w.pc);
  }

  lemma LaterHonest(s: State, x: Snap, caps: Caps, ttl: int)
    requires Honest(s, caps, ttl)
    ensures Honest(s.(hist := s.hist + [x]), caps, ttl)
  {
    forall u | u in s.cache {
      CachedLater(s.hist, x, caps, ttl, u, s.cache[u]);
    }
    forall t | t in s.tasks {
      PcOkLater(s.hist, x, caps, ttl, s.tasks[t].user, s.tasks[t].began, s.tasks[t].pc);
    }
  }

  lemma StepHonest(s: State, ev: Event, caps: Caps, ttl: int)
    requires Honest(s, caps, ttl) && Enabled(s, ev)
    ensures Honest(Next(s, ev, caps, ttl), caps, ttl)
  {
    if Lookup(ev) {
      LookupHonest(s, ev, caps, ttl);
    } else if ev.Tick? || ev.Change? {
      LaterHonest(s, Next(s, ev, caps, ttl).Now(), caps, ttl);
    }
  }

  lemma StepMonotone(s: State, ev: Event, caps: Caps, ttl: int)
    requires s.hist != [] && Monotone(s.hist) && Enabled(s, ev)
    ensures Monotone(Next(s, ev, caps, ttl).hist)
  {
  }

  ghost predicate Reached(s: State, caps: Caps, ttl: int) {
    Honest(s, caps, ttl) && Monotone(s.hist) && forall t | t in s.tasks :: ':' !in s.tasks[t].user
  }

  lemma {:induction false} StepsReached(tr: seq<State>, es: seq<Event>, caps: Caps, ttl: int, i: nat)
    requires Steps(tr, es, caps, ttl) && i < |tr| && Reached(tr[0], caps, ttl)
    ensures Reached(tr[i], caps, ttl)
  {
    if i > 0 {
      StepsReached(tr, es, caps, ttl, i - 1);
      StepHonest(tr[i - 1], es[i - 1], caps, ttl);
      StepMonotone(tr[i - 1], es[i - 1], caps, ttl);
      assert tr[i] == Next(tr[i - 1], es[i - 1], caps, ttl);
    }
  }

  /** In every run, everything cached or in flight was read from the store at the recorded moments. */
  lemma RunHonest(tr: seq<State>, es: seq<Event>, w: Snap, caps: Caps, ttl: int, i: nat)
    requires IsRun(tr, es, w, caps, ttl) && i < |tr|
    ensures Reached(tr[i], caps, ttl)
  {
    StepsReached(tr, es, caps, ttl, i);
  }

  // ---------------------------------------------------------------- staleness

  /** Every part of an answer is younger than `age` at moment `at`. */
  ghost predicate Younger(h: seq<Snap>, p: Prov, at: nat, age: int)
    requires Ordered(h, p) && at < |h|
  {
    h[at].now - h[p.pwAt].now < age && h[at].now - h[p.devAt].now < age && h[at].now - h[p.lifeAt].now < age
  }

  predicate Fails(ev: Event) {
    (ev.AskPassword? || ev.AskDevices? || ev.AskLife?) && ev.fails
  }

  /** From position `i` on, no query for `u` fails. */
  ghost predicate StoreAnswers(tr: seq<State>, es: seq<Event>, i: nat, u: User)
    requires |tr| == |es| + 1
  {
    forall k | i <= k < |es| && Fails(es[k]) && es[k].t in tr[k].tasks :: tr[k].tasks[es[k].t].user != u
  }

  predicate FromStoreOrFresh(pc: Pc) {
    pc.Answered? ==> pc.src.FromCache? || pc.src.FromStore?
  }

  /** While no query for `u` fails, lookups of `u` answer from a fresh entry or from the store. */
  lemma {:induction false} StoreSource(tr: seq<State>, es: seq<Event>, caps: Caps, ttl: int, b: nat, i: nat, t: Tid)
    requires Steps(tr, es, caps, ttl) && b <= i < |tr| && t in tr[i].tasks && t !in tr[b].tasks
    requires StoreAnswers(tr, es, b, tr[i].tasks[t].user)
    ensures FromStoreOrFresh(tr[i].tasks[t].pc)
    decreases i
  {
    if i > b {
      var m := i - 1;
      assert Enabled(tr[m], es[m]) && tr[i] == Next(tr[m], es[m], caps, ttl);
      if t in tr[m].tasks {
        SourceStep(tr[m], es[m], caps, ttl, t);
        StoreSource(tr, es, caps, ttl, b, m, t);
      }
    }
  }

  lemma SourceStep(s: State, ev: Event, caps: Caps, ttl: int, t: Tid)
    requires Enabled(s, ev) && t in s.tasks
    ensures t in Next(s, ev, caps, ttl).tasks && Next(s, ev, caps, ttl).tasks[t].user == s.tasks[t].user
    ensures FromStoreOrFresh(s.tasks[t].pc) && !(Fails(ev) && ev.t == t) ==> FromStoreOrFresh(Next(s, ev, caps, ttl).tasks[t].pc)
  {
  }

  /** The age of an answer from a fresh entry or from the store. */
  lemma SourceAge(tr: seq<State>, es: seq<Event>, w: Snap, caps: Caps, ttl: int, i: nat, t: Tid)
    requires IsRun(tr, es, w, caps, ttl) && i < |tr| && t in tr[i].tasks && tr[i].tasks[t].pc.Answered?
    requires FromStoreOrFresh(tr[i].tasks[t].pc)
    ensures var h, x := tr[i].hist, tr[i].tasks[t];
            var p, at := x.pc.src.p, x.pc.at;
            && ReadFrom(h, caps, x.user, x.pc.acct, p) && x.began <= at < |h|
            && (x.pc.src.FromCache? ==> Younger(h, p, at, ttl + (h[p.stamp].now - h[p.start].now)))
            && (x.pc.src.FromStore? ==>
                  x.began <= p.pwAt && p.lifeAt <= at && Younger(h, p, at, h[at].now - h[x.began].now + 1))
  {
    RunHonest(tr, es, w, caps, ttl, i);
    var h, x := tr[i].hist, tr[i].tasks[t];
    assert PcOk(h, caps, ttl, x.user, x.began, x.pc);
  }

  /** Main result: while the store answers, every answer is the store's own record, password, device limit and
      lifecycle, each part at most the TTL plus the duration of the lookup that filled the entry old, or read
      during the lookup itself. */
  lemma StalenessBound(tr: seq<State>, es: seq<Event>, w: Snap, caps: Caps, ttl: int, b: nat, i: nat, t: Tid)
    requires IsRun(tr, es, w, caps, ttl) && b <= i < |tr| && t in tr[i].tasks && t !in tr[b].tasks
    requires tr[i].tasks[t].pc.Answered? && StoreAnswers(tr, es, b, tr[i].tasks[t].user)
    ensures var h, x := tr[i].hist, tr[i].tasks[t];
            && (x.pc.src.FromCache? || x.pc.src.FromStore?)
            && var p, at := x.pc.src.p, x.pc.at;
               && ReadFrom(h, caps, x.user, x.pc.acct, p) && x.began <= at < |h|
               && (x.pc.src.FromCache? ==> Younger(h, p, at, ttl + (h[p.stamp].now - h[p.start].now)))
               && (x.pc.src.FromStore? ==>
                     x.began <= p.pwAt && p.lifeAt <= at && Younger(h, p, at, h[at].now - h[x.began].now + 1))
  {
    StoreSource(tr, es, caps, ttl, b, i, t);
    SourceAge(tr, es, w, caps, ttl, i, t);
  }

  /** The lookup that answers and, if it answers from an entry, the one that filled it took at most `d`, and the
      answer came `ttl + d` or more after position `j`. */
  ghost predicate LateAnswer(h: seq<Snap>, x: Task, ttl: int, j: nat, d: int) {
    && x.pc.Answered? && !x.pc.src.Nowhere?
    && var p, at := x.pc.src.p, x.pc.at;
    && p.start < |h| && p.stamp < |h| && at < |h| && x.began < |h| && j < |h|
    && h[p.stamp].now - h[p.start].now <= d && h[at].now - h[x.began].now <= d
    && h[at].now >= h[j].now + ttl + d
  }

  /** So every change of a user's record governs every answer given `ttl + d` after it, when no lookup takes
      longer than `d`: no part of such an answer was read before the change. */
  lemma ChangesGovern(tr: seq<State>, es: seq<Event>, w: Snap, caps: Caps, ttl: int, b: nat, i: nat, t: Tid, j: nat, d: int)
    requires IsRun(tr, es, w, caps, ttl) && b <= i < |tr| && t in tr[i].tasks && t !in tr[b].tasks
    requires StoreAnswers(tr, es, b, tr[i].tasks[t].user) && ttl > 0 && LateAnswer(tr[i].hist, tr[i].tasks[t], ttl, j, d)
    ensures var h, x := tr[i].hist, tr[i].tasks[t];
            ReadFrom(h, caps, x.user, x.pc.acct, x.pc.src.p) && After(x.pc.src.p, j + 1, false)
  {
    StalenessBound(tr, es, w, caps, ttl, b, i, t);
    RunHonest(tr, es, w, caps, ttl, i);
    var h, x := tr[i].hist, tr[i].tasks[t];
    assert h[x.pc.src.p.pwAt].now > h[j].now;
  }

  /** What that means for an answer: a password that has not changed since is the answer's password. For an
      answer with no failed query the same goes for the device limit, for a disabled account even while its
      traffic counter moves, and for the whole row. */
  lemma GovernedAnswer(h: seq<Snap>, caps: Caps, u: User, acct: Option<Account>, p: Prov, j: nat)
    requires ReadFrom(h, caps, u, acct, p) && After(p, j, false) && j < |h|
    ensures (forall m | j <= m < |h| :: PasswordOf(h[m].store, u) == PasswordOf(h[j].store, u)) ==>
              && (acct.None? <==> PasswordOf(h[j].store, u) == "")
              && (acct.Some? ==> acct.value.password == PasswordOf(h[j].store, u))
    ensures p.whole && caps.devices && acct.Some? && (forall m | j <= m < |h| :: DevicesOf(h[m].store, u) == DevicesOf(h[j].store, u)) ==>
              acct.value.maxDevices == DevicesOf(h[j].store, u)
    ensures p.whole && caps.lifecycle && acct.Some? && (forall m | j <= m < |h| :: !LifeOf(h[m].store, u).enabled) ==>
              acct.value.life.Some? && !acct.value.life.value.enabled
    ensures p.whole && (forall m | j <= m < |h| :: SameRow(h[m].store, h[j].store, u)) ==>
              acct == AccountOf(h[j].store, caps, u)
  {
    if p.whole && forall m | j <= m < |h| :: SameRow(h[m].store, h[j].store, u) {
      assert SameRow(h[p.pwAt].store, h[j].store, u) && SameRow(h[p.devAt].store, h[j].store, u)
          && SameRow(h[p.lifeAt].store, h[j].store, u);
    }
  }

  /** Whatever fails, an accepted password is one the store once held for that user. */
  lemma NeverInvented(tr: seq<State>, es: seq<Event>, w: Snap, caps: Caps, ttl: int, i: nat, t: Tid)
    requires IsRun(tr, es, w, caps, ttl) && i < |es| && es[i] == Conclude(t)
    requires tr[i + 1].tasks[t].pc.Decided? && tr[i + 1].tasks[t].pc.result.deny != DenyBadCreds
    ensures exists k | 0 <= k < |tr[i].hist| ::
              PasswordOf(tr[i].hist[k].store, tr[i].tasks[t].user) == tr[i].tasks[t].password != ""
  {
    RunHonest(tr, es, w, caps, ttl, i);
    var h, x := tr[i].hist, tr[i].tasks[t];
    assert PcOk(h, caps, ttl, x.user, x.began, x.pc);
    assert tr[i + 1] == Next(tr[i], es[i], caps, ttl);
    assert PasswordOf(h[x.pc.src.p.pwAt].store, x.user) == x.password;
  }

  // ---------------------------------------------------------------- invalidation and transparency

  predicate SameRow(a: Store, b: Store, u: User) {
    (u in a <==> u in b) && (u in a ==> a[u] == b[u])
  }

  /** Read at position `j` or later; with `strict`, completely. */
  predicate After(p: Prov, j: nat, strict: bool) {
    p.pwAt >= j && (strict ==> p.whole)
  }

  /** An entry that no lookup can answer from: negative and expired. */
  predicate Dead(e: CacheEntry, now: int) {
    e.acct.None? && e.exp <= now
  }

  predicate CachedAfter(c: Cached, j: nat, strict: bool, now: int) {
    After(c.prov, j, strict) || Dead(c.e, now)
  }

  /** A lookup begun after position `j` has seen and will see nothing older. */
  predicate NewOk(pc: Pc, j: nat, strict: bool, now: int) {
    match pc
    case Peeked(hit) => hit.Some? ==> CachedAfter(hit.value, j, strict, now)
    case Asking(hit, start) => hit.Some? ==> CachedAfter(hit.value, j, strict, now)
    case HavePassword(pw, p) => After(p, j, strict)
    case HaveDevices(pw, dev, p) => After(p, j, strict)
    case HaveAll(acct, p) => After(p, j, strict)
    case Stamped(c) => After(c.prov, j, strict)
    case Answered(acct, src, at) => if src.Nowhere? then !strict else After(src.p, j, strict)
    case Decided(result, at) => true
  }

  /** An older lookup will not put an older read into the cache, or only as an entry nobody can answer from. */
  predicate HeldOk(pc: Pc, j: nat, strict: bool, now: int, ttl: int) {
    match pc
    case HavePassword(pw, p) => After(p, j, strict)
    case HaveDevices(pw, dev, p) => After(p, j, strict)
    case HaveAll(acct, p) => After(p, j, strict) || (acct.None? && ttl <= 0)
    case Stamped(c) => CachedAfter(c, j, strict, now)
    case _ => true
  }

  /** Everything that can still answer for `u` was read after position `j`; `before` are the lookups that were
      under way already. */
  ghost predicate Renewed(s: State, u: User, j: nat, before: set<Tid>, strict: bool, ttl: int) {
    && j < |s.hist|
    && (u in s.cache ==> CachedAfter(s.cache[u], j, strict, s.Now().now))
    && (forall t | t in s.tasks && s.tasks[t].user == u && t !in before :: NewOk(s.tasks[t].pc, j, strict, s.Now().now))
    && (forall t | t in s.tasks && s.tasks[t].user == u && t in before :: HeldOk(s.tasks[t].pc, j, strict, s.Now().now, ttl))
    && before <= s.tasks.Keys
  }

  lemma MovedNew(s: State, ev: Event, w: Task, caps: Caps, ttl: int, j: nat, strict: bool)
    requires j < |s.hist| && NewOk(w.pc, j, strict, s.Now().now) && (strict ==> !Fails(ev))
    ensures NewOk(Moved(s, ev, w, caps, ttl), j, strict, s.Now().now)
  {
  }

  lemma MovedHeld(s: State, ev: Event, w: Task, caps: Caps, ttl: int, j: nat, strict: bool)
    requires j < |s.hist| && HeldOk(w.pc, j, strict, s.Now().now, ttl) && (strict ==> !Fails(ev))
    ensures HeldOk(Moved(s, ev, w, caps, ttl), j, strict, s.Now().now, ttl)
  {
  }

  lemma WrittenRenewed(s: State, ev: Event, caps: Caps, ttl: int, u: User, j: nat, before: set<Tid>, strict: bool)
    requires Lookup(ev) && Enabled(s, ev) && Renewed(s, u, j, before, strict, ttl)
    ensures var s' := Next(s, ev, caps, ttl); u in s'.cache ==> CachedAfter(s'.cache[u], j, strict, s.Now().now)
  {
  }

  lemma LookupRenewed(s: State, ev: Event, caps: Caps, ttl: int, u: User, j: nat, before: set<Tid>, strict: bool)
    requires Lookup(ev) && Enabled(s, ev) && Renewed(s, u, j, before, strict, ttl)
    requires strict && Fails(ev) ==> s.tasks[ev.t].user != u
    ensures Renewed(Next(s, ev, caps, ttl), u, j, before, strict, ttl)
  {
    var w, s' := s.tasks[ev.t], Next(s, ev, caps, ttl);
    WrittenRenewed(s, ev, caps, ttl, u, j, before, strict);
    assert s'.hist == s.hist && s'.tasks == s.tasks[ev.t := w.(pc := Moved(s, ev, w, caps, ttl))];
    if w.user == u {
      if ev.t in before {
        MovedHeld(s, ev, w, caps, ttl, j, strict);
      } else {
        MovedNew(s, ev, w, caps, ttl, j, strict);
      }
    }
  }

  /** Time only turns entries dead. */
  lemma LaterOk(pc: Pc, j: nat, strict: bool, now: int, later: int, ttl: int)
    requires now <= later
    ensures NewOk(pc, j, strict, now) ==> NewOk(pc, j, strict, later)
    ensures HeldOk(pc, j, strict, now, ttl) ==> HeldOk(pc, j, strict, later, ttl)
  {
  }

  lemma LaterRenewed(s: State, x: Snap, u: User, j: nat, before: set<Tid>, strict: bool, ttl: int)
    requires Renewed(s, u, j, before, strict, ttl) && s.Now().now <= x.now
    ensures Renewed(s.(hist := s.hist + [x]), u, j, before, strict, ttl)
  {
    forall t | t in s.tasks {
      LaterOk(s.tasks[t].pc, j, strict, s.Now().now, x.now, ttl);
    }
  }

  lemma BegunRenewed(s: State, ev: Event, caps: Caps, ttl: int, u: User, j: nat, before: set<Tid>, strict: bool)
    requires ev.Begin? && Enabled(s, ev) && Renewed(s, u, j, before, strict, ttl)
    ensures Renewed(Next(s, ev, caps, ttl), u, j, before, strict, ttl)
  {
  }

  lemma ShrunkRenewed(s: State, cache: map<User, Cached>, u: User, j: nat, before: set<Tid>, strict: bool, ttl: int)
    requires Renewed(s, u, j, before, strict, ttl) && (u in cache ==> u in s.cache && cache[u] == s.cache[u])
    ensures Renewed(s.(cache := cache), u, j, before, strict, ttl)
  {
  }

  lemma StepRenewed(s: State, ev: Event, caps: Caps, ttl: int, u: User, j: nat, before: set<Tid>, strict: bool)
    requires Enabled(s, ev) && Renewed(s, u, j, before, strict, ttl)
    requires strict && Fails(ev) ==> s.tasks[ev.t].user != u
    ensures Renewed(Next(s, ev, caps, ttl), u, j, before, strict, ttl)
  {
    if Lookup(ev) {
      LookupRenewed(s, ev, caps, ttl, u, j, before, strict);
    } else if ev.Tick? || ev.Change? {
      LaterRenewed(s, Next(s, ev, caps, ttl).Now(), u, j, before, strict, ttl);
    } else if ev.Begin? {
      BegunRenewed(s, ev, caps, ttl, u, j, before, strict);
    } else {
      ShrunkRenewed(s, Next(s, ev, caps, ttl).cache, u, j, before, strict, ttl);
    }
  }

  lemma RenewedAt(tr: seq<State>, es: seq<Event>, caps: Caps, ttl: int,
                  u: User, j: nat, before: set<Tid>, strict: bool, i: nat, k: nat)
    requires Steps(tr, es, caps, ttl) && i <= k < |es| && Renewed(tr[k], u, j, before, strict, ttl)
    requires strict ==> StoreAnswers(tr, es, i, u)
    ensures Renewed(tr[k + 1], u, j, before, strict, ttl)
  {
    assert Enabled(tr[k], es[k]) && tr[k + 1] == Next(tr[k], es[k], caps, ttl);
    StepRenewed(tr[k], es[k], caps, ttl, u, j, before, strict);
  }

  lemma {:induction false} RunRenewed(tr: seq<State>, es: seq<Event>, caps: Caps, ttl: int,
                                      u: User, j: nat, before: set<Tid>, strict: bool, i: nat, k: nat)
    requires Steps(tr, es, caps, ttl) && i <= k < |tr| && Renewed(tr[i], u, j, before, strict, ttl)
    requires strict ==> StoreAnswers(tr, es, i, u)
    ensures Renewed(tr[k], u, j, before, strict, ttl)
    decreases k
  {
    if i < k {
      var m := k - 1;
      RunRenewed(tr, es, caps, ttl, u, j, before, strict, i, m);
      RenewedAt(tr, es, caps, ttl, u, j, before, strict, i, m);
      assert tr[k] == tr[m + 1];
    }
  }

  /** No lookup of `u` under way holds a read older than the present that could still answer. */
  ghost predicate Clear(s: State, u: User, strict: bool, ttl: int)
    requires s.hist != []
  {
    forall t | t in s.tasks && s.tasks[t].user == u :: HeldOk(s.tasks[t].pc, s.Here(), strict, s.Now().now, ttl)
  }

  /** The entry of `u` is invalidated, alone or with all others. */
  predicate Drops(ev: Event, u: User) {
    ev == Invalidate(u) || ev == InvalidateAll
  }

  /** `u` starts afresh at state `i`: the run begins there, or `u` was just invalidated and is clear. */
  ghost predicate StartsAfresh(tr: seq<State>, es: seq<Event>, i: nat, u: User, strict: bool, ttl: int)
    requires |tr| == |es| + 1 && i < |tr| && tr[i].hist != []
  {
    i == 0 || (Drops(es[i - 1], u) && Clear(tr[i], u, strict, ttl))
  }

  lemma AfreshRenewed(tr: seq<State>, es: seq<Event>, w: Snap, caps: Caps, ttl: int, i: nat, u: User, strict: bool)
    requires IsRun(tr, es, w, caps, ttl) && i < |tr| && tr[i].hist != [] && StartsAfresh(tr, es, i, u, strict, ttl)
    ensures Renewed(tr[i], u, tr[i].Here(), tr[i].tasks.Keys, strict, ttl)
  {
    if i > 0 {
      assert tr[i] == Next(tr[i - 1], es[i - 1], caps, ttl);
    }
  }

  /** After an invalidation with `u` clear, every later answer for `u` that comes from the cache or the store,
      expired entries included, is a store record read after the invalidation. */
  lemma InvalidationHolds(tr: seq<State>, es: seq<Event>, w: Snap, caps: Caps, ttl: int, i: nat, k: nat, t: Tid)
    requires IsRun(tr, es, w, caps, ttl) && i <= k < |tr| && tr[i].hist != []
    requires t in tr[k].tasks && t !in tr[i].tasks && tr[k].tasks[t].pc.Answered? && !tr[k].tasks[t].pc.src.Nowhere?
    requires StartsAfresh(tr, es, i, tr[k].tasks[t].user, false, ttl)
    ensures After(tr[k].tasks[t].pc.src.p, tr[i].Here(), false)
    ensures ReadFrom(tr[k].hist, caps, tr[k].tasks[t].user, tr[k].tasks[t].pc.acct, tr[k].tasks[t].pc.src.p)
  {
    var x := tr[k].tasks[t];
    AfreshRenewed(tr, es, w, caps, ttl, i, x.user, false);
    RunRenewed(tr, es, caps, ttl, x.user, tr[i].Here(), tr[i].tasks.Keys, false, i, k);
    RunHonest(tr, es, w, caps, ttl, k);
    assert PcOk(tr[k].hist, caps, ttl, x.user, x.began, x.pc);
    assert NewOk(x.pc, tr[i].Here(), false, tr[k].Now().now);
  }

  // ---------------------------------------------------------------- why being clear is needed

  lemma Extended(tr: seq<State>, es: seq<Event>, ev: Event, caps: Caps, ttl: int) returns (tr': seq<State>, es': seq<Event>)
    requires Steps(tr, es, caps, ttl) && Enabled(tr[|es|], ev)
    ensures Steps(tr', es', caps, ttl) && tr'[0] == tr[0] && tr'[|es'|] == Next(tr[|es|], ev, caps, ttl)
  {
    tr', es' := tr + [Next(tr[|es|], ev, caps, ttl)], es + [ev];
    forall i | 0 <= i < |es'| ensures Enabled(tr'[i], es'[i]) && tr'[i + 1] == Next(tr'[i], es'[i], caps, ttl) {
      if i < |es| {
        assert tr'[i] == tr[i] && tr'[i + 1] == tr[i + 1] && es'[i] == es[i];
      }
    }
  }

  predicate Holds(pc: Pc) {
    pc.HavePassword? || pc.HaveDevices? || pc.HaveAll? || pc.Stamped?
  }

  /** The next step of a lookup that holds a read, with every query answered. */
  function Onward(pc: Pc, t: Tid): Event
    requires Holds(pc)
  {
    match pc
    case HavePassword(_, _) => AskDevices(t, false)
    case HaveDevices(_, _, _) => AskLife(t, false)
    case HaveAll(_, _) => Stamp(t)
    case Stamped(_) => Write(t)
  }

  function Rank(pc: Pc): nat
    requires Holds(pc)
  {
    match pc case HavePassword(_, _) => 3 case HaveDevices(_, _, _) => 2 case HaveAll(_, _) => 1 case Stamped(_) => 0
  }

  /** One such step keeps the old read and stays not clear. */
  lemma OnwardKeeps(s: State, t: Tid, caps: Caps, ttl: int, j: nat)
    requires Busy(s, t) && Holds(s.tasks[t].pc) && !s.tasks[t].pc.Stamped? && !HeldOk(s.tasks[t].pc, j, false, s.Now().now, ttl)
    ensures Enabled(s, Onward(s.tasks[t].pc, t))
    ensures var s' := Next(s, Onward(s.tasks[t].pc, t), caps, ttl);
            && s'.hist == s.hist && s'.tasks.Keys == s.tasks.Keys && s'.tasks[t].user == s.tasks[t].user
            && Holds(s'.tasks[t].pc) && Rank(s'.tasks[t].pc) < Rank(s.tasks[t].pc)
            && !HeldOk(s'.tasks[t].pc, j, false, s.Now().now, ttl)
  {
  }

  /** So it ends with the old read in the cache, in an entry that can answer. */
  lemma {:induction false} ReachCache(tr: seq<State>, es: seq<Event>, t: Tid, caps: Caps, ttl: int, j: nat)
    returns (tr': seq<State>, es': seq<Event>)
    requires Steps(tr, es, caps, ttl) && Busy(tr[|es|], t) && Holds(tr[|es|].tasks[t].pc)
    requires !HeldOk(tr[|es|].tasks[t].pc, j, false, tr[|es|].Now().now, ttl)
    ensures Steps(tr', es', caps, ttl) && tr'[0] == tr[0]
    ensures var s, s' := tr[|es|], tr'[|es'|];
            && s'.hist == s.hist && s'.tasks.Keys == s.tasks.Keys && s.tasks[t].user in s'.cache
            && !CachedAfter(s'.cache[s.tasks[t].user], j, false, s.Now().now)
    decreases Rank(tr[|es|].tasks[t].pc)
  {
    var s := tr[|es|];
    if s.tasks[t].pc.Stamped? {
      tr', es' := Extended(tr, es, Write(t), caps, ttl);
    } else {
      OnwardKeeps(s, t, caps, ttl, j);
      tr', es' := Extended(tr, es, Onward(s.tasks[t].pc, t), caps, ttl);
      tr', es' := ReachCache(tr', es', t, caps, ttl, j);
    }
  }

  /** At position `k`, a lookup of `u` begun after `tr[0]` has an answer from the cache or the store. */
  ghost predicate NewAnswer(tr: seq<State>, k: nat, t: Tid, u: User) {
    && k < |tr| && t in tr[k].tasks && t !in tr[0].tasks && tr[k].tasks[t].user == u
    && tr[k].tasks[t].pc.Answered? && !tr[k].tasks[t].pc.src.Nowhere?
  }

  /** From an entry that can answer, a new lookup answers: while it is fresh directly, and once it has expired
      when the store fails. */
  lemma AnswerFromCache(tr: seq<State>, es: seq<Event>, u: User, caps: Caps, ttl: int, j: nat)
    returns (tr': seq<State>, es': seq<Event>, t: Tid)
    requires Steps(tr, es, caps, ttl) && tr[|es|].hist != [] && ':' !in u && tr[0].tasks.Keys <= tr[|es|].tasks.Keys
    requires u in tr[|es|].cache && !CachedAfter(tr[|es|].cache[u], j, false, tr[|es|].Now().now)
    ensures Steps(tr', es', caps, ttl) && tr'[0] == tr[0]
    ensures NewAnswer(tr', |es'|, t, u) && tr'[|es'|].tasks[t].pc.src.p.pwAt < j
  {
    t := Above(tr[|es|].tasks.Keys);
    SplitJoin(u, "");
    tr', es' := Extended(tr, es, Begin(t, u + ":" + ""), caps, ttl);
    tr', es' := Extended(tr', es', CheckFresh(t), caps, ttl);
    if tr'[|es'|].tasks[t].pc.Asking? {
      tr', es' := Extended(tr', es', AskPassword(t, true), caps, ttl);
    }
  }

  /** Right after an invalidation that leaves `u` not clear, the run can go on to a lookup begun after it that
      answers from a read before it. */
  lemma InFlightAnswers(s: State, u: User, caps: Caps, ttl: int) returns (tr: seq<State>, es: seq<Event>, t: Tid)
    requires Reached(s, caps, ttl) && !Clear(s, u, false, ttl)
    ensures Steps(tr, es, caps, ttl) && tr[0] == s
    ensures NewAnswer(tr, |es|, t, u) && tr[|es|].tasks[t].pc.src.p.pwAt < s.Here()
  {
    var r :| r in s.tasks && s.tasks[r].user == u && !HeldOk(s.tasks[r].pc, s.Here(), false, s.Now().now, ttl);
    tr, es := ReachCache([s], [], r, caps, ttl, s.Here());
    tr, es, t := AnswerFromCache(tr, es, u, caps, ttl, s.Here());
  }

  /** However the run goes on, lookups of `u` begun from now on answer from reads made from now on. */
  ghost predicate OnlyNewReads(s: State, u: User, caps: Caps, ttl: int)
    requires s.hist != []
  {
    forall tr: seq<State>, es: seq<Event>, k: nat, t: Tid |
      Steps(tr, es, caps, ttl) && tr[0] == s && NewAnswer(tr, k, t, u) :: tr[k].tasks[t].pc.src.p.pwAt >= s.Here()
  }

  /** Main result, with the exact condition: an invalidation takes effect on all later lookups if and only if
      no lookup under way holds an older read that could still answer. */
  lemma InvalidationHoldsIff(s: State, ev: Event, u: User, caps: Caps, ttl: int)
    requires Reached(s, caps, ttl) && Drops(ev, u)
    ensures var s' := Next(s, ev, caps, ttl);
            OnlyNewReads(s', u, caps, ttl) <==> Clear(s', u, false, ttl)
  {
    var s' := Next(s, ev, caps, ttl);
    if Clear(s', u, false, ttl) {
      forall tr: seq<State>, es: seq<Event>, k: nat, t: Tid |
        Steps(tr, es, caps, ttl) && tr[0] == s' && NewAnswer(tr, k, t, u)
        ensures tr[k].tasks[t].pc.src.p.pwAt >= s'.Here()
      {
        RunRenewed(tr, es, caps, ttl, u, s'.Here(), s'.tasks.Keys, false, 0, k);
        assert NewOk(tr[k].tasks[t].pc, s'.Here(), false, tr[k].Now().now);
      }
    } else {
      StepHonest(s, ev, caps, ttl);
      var tr, es, t := InFlightAnswers(s', u, caps, ttl);
      assert Steps(tr, es, caps, ttl) && NewAnswer(tr, |es|, t, u);
    }
  }

  /** A whole read made while the row did not change is the current row. */
  lemma ReadIsCurrent(h: seq<Snap>, caps: Caps, u: User, acct: Option<Account>, p: Prov, j: nat)
    requires ReadFrom(h, caps, u, acct, p) && After(p, j, true) && j < |h|
    requires forall m | j <= m < |h| :: SameRow(h[m].store, h[|h| - 1].store, u)
    ensures acct == AccountOf(h[|h| - 1].store, caps, u)
  {
    var last := h[|h| - 1];
    assert SameRow(h[p.pwAt].store, last.store, u) && SameRow(h[p.devAt].store, last.store, u)
        && SameRow(h[p.lifeAt].store, last.store, u);
  }

  /** A lookup begun after a fresh start, with every query answered, has read all of its answer since. */
  lemma AfreshAnswer(tr: seq<State>, es: seq<Event>, w: Snap, caps: Caps, ttl: int, i: nat, k: nat, t: Tid)
    requires IsRun(tr, es, w, caps, ttl) && i <= k < |tr| && t in tr[k].tasks && t !in tr[i].tasks
    requires tr[i].hist != [] && tr[k].tasks[t].pc.Answered?
    requires StartsAfresh(tr, es, i, tr[k].tasks[t].user, true, ttl) && StoreAnswers(tr, es, i, tr[k].tasks[t].user)
    ensures var x := tr[k].tasks[t];
            && !x.pc.src.Nowhere? && |tr[i].hist| <= |tr[k].hist|
            && ReadFrom(tr[k].hist, caps, x.user, x.pc.acct, x.pc.src.p) && After(x.pc.src.p, |tr[i].hist| - 1, true)
  {
    var x := tr[k].tasks[t];
    AfreshRenewed(tr, es, w, caps, ttl, i, x.user, true);
    RunRenewed(tr, es, caps, ttl, x.user, |tr[i].hist| - 1, tr[i].tasks.Keys, true, i, k);
    RunHonest(tr, es, w, caps, ttl, k);
    assert PcOk(tr[k].hist, caps, ttl, x.user, x.began, x.pc) && NewOk(x.pc, |tr[i].hist| - 1, true, tr[k].Now().now);
  }

  lemma AfreshVerdict(tr: seq<State>, es: seq<Event>, w: Snap, caps: Caps, ttl: int, i: nat, k: nat, t: Tid)
    requires IsRun(tr, es, w, caps, ttl) && i <= k < |tr| && t in tr[k].tasks && t !in tr[i].tasks
    requires tr[i].hist != [] && tr[k].hist != [] && tr[k].tasks[t].pc.Answered?
    requires StartsAfresh(tr, es, i, tr[k].tasks[t].user, true, ttl) && StoreAnswers(tr, es, i, tr[k].tasks[t].user)
    requires forall m | |tr[i].hist| - 1 <= m < |tr[k].hist| ::
               SameRow(tr[k].hist[m].store, tr[k].hist[|tr[k].hist| - 1].store, tr[k].tasks[t].user)
    ensures var x, now := tr[k].tasks[t], tr[k].hist[|tr[k].hist| - 1];
            Decide(x.pc.acct, x.user, x.password, now.now) == Uncached(now.store, caps, x.user, x.password, now.now)
  {
    var x, h := tr[k].tasks[t], tr[k].hist;
    AfreshAnswer(tr, es, w, caps, ttl, i, k, t);
    ReadIsCurrent(h, caps, x.user, x.pc.acct, x.pc.src.p, |tr[i].hist| - 1);
    DecideIsUncached(h[|h| - 1].store, caps, x.user, x.password, h[|h| - 1].now);
  }

  /** Nothing read at position `n` or later has a failed query. */
  predicate WholeFrom(p: Prov, n: nat) {
    p.pwAt >= n ==> p.whole
  }

  predicate PcWhole(pc: Pc, n: nat) {
    match pc
    case Peeked(hit) => hit.Some? ==> WholeFrom(hit.value.prov, n)
    case Asking(hit, start) => hit.Some? ==> WholeFrom(hit.value.prov, n)
    case HavePassword(pw, p) => WholeFrom(p, n)
    case HaveDevices(pw, dev, p) => WholeFrom(p, n)
    case HaveAll(acct, p) => WholeFrom(p, n)
    case Stamped(c) => WholeFrom(c.prov, n)
    case Answered(acct, src, at) => !src.Nowhere? ==> WholeFrom(src.p, n)
    case Decided(result, at) => true
  }

  ghost predicate Whole(s: State, u: User, n: nat) {
    && (u in s.cache ==> WholeFrom(s.cache[u].prov, n))
    && (forall t | t in s.tasks && s.tasks[t].user == u :: PcWhole(s.tasks[t].pc, n))
  }

  lemma MovedWhole(s: State, ev: Event, w: Task, caps: Caps, ttl: int, n: nat)
    requires s.hist != [] && PcWhole(w.pc, n) && !Fails(ev)
    ensures PcWhole(Moved(s, ev, w, caps, ttl), n)
  {
  }

  lemma StepWhole(s: State, ev: Event, caps: Caps, ttl: int, u: User, n: nat)
    requires Enabled(s, ev) && Whole(s, u, n) && (Fails(ev) ==> s.tasks[ev.t].user != u)
    ensures Whole(Next(s, ev, caps, ttl), u, n)
  {
    if Lookup(ev) && s.tasks[ev.t].user == u {
      MovedWhole(s, ev, s.tasks[ev.t], caps, ttl, n);
    }
  }

  /** While no query for `u` fails, whatever is read for `u` from then on is read completely. */
  lemma {:induction false} WholeSince(tr: seq<State>, es: seq<Event>, w: Snap, caps: Caps, ttl: int, u: User, b: nat, k: nat)
    requires IsRun(tr, es, w, caps, ttl) && b <= k < |tr| && StoreAnswers(tr, es, b, u)
    ensures Whole(tr[k], u, |tr[b].hist|)
    decreases k
  {
    if k == b {
      RunHonest(tr, es, w, caps, ttl, b);
      forall t | t in tr[b].tasks ensures PcWhole(tr[b].tasks[t].pc, |tr[b].hist|) {
        assert PcOk(tr[b].hist, caps, ttl, tr[b].tasks[t].user, tr[b].tasks[t].began, tr[b].tasks[t].pc);
      }
    } else {
      var m := k - 1;
      WholeSince(tr, es, w, caps, ttl, u, b, m);
      assert Enabled(tr[m], es[m]) && tr[k] == Next(tr[m], es[m], caps, ttl);
      StepWhole(tr[m], es[m], caps, ttl, u, |tr[b].hist|);
    }
  }

  /** A late answer, with the row unchanged and every query answered since, is the current row. */
  lemma LateVerdict(tr: seq<State>, es: seq<Event>, w: Snap, caps: Caps, ttl: int, b: nat, k: nat, t: Tid, d: int)
    requires IsRun(tr, es, w, caps, ttl) && b <= k < |tr| && t in tr[k].tasks && t !in tr[b].tasks
    requires tr[b].hist != [] && tr[k].hist != []
    requires StoreAnswers(tr, es, b, tr[k].tasks[t].user) && ttl > 0
    requires LateAnswer(tr[k].hist, tr[k].tasks[t], ttl, tr[b].Here(), d)
    requires forall m | tr[b].Here() <= m < |tr[k].hist| ::
               SameRow(tr[k].hist[m].store, tr[k].hist[|tr[k].hist| - 1].store, tr[k].tasks[t].user)
    ensures var x, now := tr[k].tasks[t], tr[k].hist[|tr[k].hist| - 1];
            Decide(x.pc.acct, x.user, x.password, now.now) == Uncached(now.store, caps, x.user, x.password, now.now)
  {
    var h, x := tr[k].hist, tr[k].tasks[t];
    ChangesGovern(tr, es, w, caps, ttl, b, k, t, tr[b].Here(), d);
    WholeSince(tr, es, w, caps, ttl, x.user, b, k);
    assert PcWhole(x.pc, |tr[b].hist|);
    ReadIsCurrent(h, caps, x.user, x.pc.acct, x.pc.src.p, tr[b].Here());
    DecideIsUncached(h[|h| - 1].store, caps, x.user, x.password, h[|h| - 1].now);
  }

  lemma ConcludeDecides(s: State, t: Tid, caps: Caps, ttl: int)
    requires Enabled(s, Conclude(t))
    ensures var x := s.tasks[t];
            Next(s, Conclude(t), caps, ttl).tasks[t].pc == Decided(Decide(x.pc.acct, x.user, x.password, s.Now().now), s.Here())
  {
  }

  lemma ConcludedAt(tr: seq<State>, es: seq<Event>, caps: Caps, ttl: int, k: nat, t: Tid)
    requires Steps(tr, es, caps, ttl) && k < |es| && es[k] == Conclude(t)
    ensures Enabled(tr[k], Conclude(t)) && t in tr[k + 1].tasks
    ensures var x := tr[k].tasks[t];
            tr[k + 1].tasks[t].pc == Decided(Decide(x.pc.acct, x.user, x.password, tr[k].Now().now), tr[k].Here())
  {
    assert Enabled(tr[k], es[k]) && tr[k + 1] == Next(tr[k], es[k], caps, ttl);
    ConcludeDecides(tr[k], t, caps, ttl);
  }

  /** Main result: as long as the row of `u` does not change and queries for `u` succeed, every verdict is
      the one an uncached check gives at that very instant, expiry included. */
  lemma CacheTransparent(tr: seq<State>, es: seq<Event>, w: Snap, caps: Caps, ttl: int, i: nat, k: nat, t: Tid)
    requires IsRun(tr, es, w, caps, ttl) && i <= k < |es| && es[k] == Conclude(t) && t !in tr[i].tasks
    requires tr[i].hist != []
    requires StartsAfresh(tr, es, i, tr[k].tasks[t].user, true, ttl) && StoreAnswers(tr, es, i, tr[k].tasks[t].user)
    requires forall m | |tr[i].hist| - 1 <= m < |tr[k].hist| ::
               SameRow(tr[k].hist[m].store, tr[k].hist[|tr[k].hist| - 1].store, tr[k].tasks[t].user)
    ensures var x, now := tr[k].tasks[t], tr[k].hist[|tr[k].hist| - 1];
            tr[k + 1].tasks[t].pc == Decided(Uncached(now.store, caps, x.user, x.password, now.now), |tr[k].hist| - 1)
  {
    ConcludedAt(tr, es, caps, ttl, k, t);
    AfreshVerdict(tr, es, w, caps, ttl, i, k, t);
  }

  /** The same without a fresh start: once the row has stood and queries for `u` have succeeded for the TTL plus
      one lookup's duration, every verdict is the uncached one at that instant. */
  lemma TransparentAfterTtl(tr: seq<State>, es: seq<Event>, w: Snap, caps: Caps, ttl: int, b: nat, k: nat, t: Tid, d: int)
    requires IsRun(tr, es, w, caps, ttl) && b <= k < |es| && es[k] == Conclude(t) && t !in tr[b].tasks
    requires tr[b].hist != []
    requires StoreAnswers(tr, es, b, tr[k].tasks[t].user) && ttl > 0
    requires LateAnswer(tr[k].hist, tr[k].tasks[t], ttl, tr[b].Here(), d)
    requires forall m | tr[b].Here() <= m < |tr[k].hist| ::
               SameRow(tr[k].hist[m].store, tr[k].hist[|tr[k].hist| - 1].store, tr[k].tasks[t].user)
    ensures var x, now := tr[k].tasks[t], tr[k].hist[|tr[k].hist| - 1];
            tr[k + 1].tasks[t].pc == Decided(Uncached(now.store, caps, x.user, x.password, now.now), |tr[k].hist| - 1)
  {
    ConcludedAt(tr, es, caps, ttl, k, t);
    LateVerdict(tr, es, w, caps, ttl, b, k, t, d);
  }
}
