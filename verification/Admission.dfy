/** Many CONNECT handlers against one tracker. Each lock section of a handler is one step, so a run is
    any interleaving of the handlers with each other and with administrative kicks. */
module Admission {
  import opened Sums
  import opened Tracker

  type Hid = nat

  /** Where a handler stands in the admission sequence. */
  datatype Stage =
    | Arrived                             // before the revocation check
    | Cleared                             // connection was not revoked
    | Admitted(user: User, limit: int)    // credentials accepted, device limit known
    | Unknown(user: User, limit: int)     // connection had no live entry; count still to be checked
    | Passed(user: User)                  // device check passed, not yet registered
    | Serving(user: User)                 // registered
    | Refused                             // answered with an error, never registered
    | Done                                // unregistered

  datatype Handler = Handler(conn: Conn, stage: Stage)

  datatype State = State(ix: Index, hs: map<Hid, Handler>)

  datatype Event =
    | Arrive(h: Hid, conn: Conn)
    | CheckRevoked(h: Hid)
    | Authenticate(h: Hid, who: User, limit: int)
    | Reject(h: Hid)
    | CheckKnown(h: Hid)
    | CheckCount(h: Hid)
    | Enter(h: Hid, addr: string, now: int)
    | Leave(h: Hid)
    | KickUser(u: User, reason: string)
    | KickSession(u: User, addr: string, reason: string)

  const Initial := State(Index(map[], map[], map[]), map[])

  predicate Enabled(s: State, e: Event) {
    match e
    case Arrive(h, c) => h !in s.hs
    case CheckRevoked(h) => h in s.hs && s.hs[h].stage == Arrived
    case Authenticate(h, who, limit) => h in s.hs && s.hs[h].stage == Cleared && who != ""
    case Reject(h) => h in s.hs && s.hs[h].stage == Cleared
    case CheckKnown(h) => h in s.hs && s.hs[h].stage.Admitted?
    case CheckCount(h) => h in s.hs && s.hs[h].stage.Unknown?
    case Enter(h, addr, now) => h in s.hs && s.hs[h].stage.Passed?
    case Leave(h) => h in s.hs && s.hs[h].stage.Serving?
    case KickUser(u, reason) => true
    case KickSession(u, addr, reason) => true
  }

  function Move(s: State, h: Hid, stage: Stage): State
    requires h in s.hs
  {
    s.(hs := s.hs[h := s.hs[h].(stage := stage)])
  }

  function Next(s: State, e: Event): State
    requires Enabled(s, e)
  {
    match e
    case Arrive(h, c) => s.(hs := s.hs[h := Handler(c, Arrived)])
    case CheckRevoked(h) => Move(s, h, if s.hs[h].conn in s.ix.revoked then Refused else Cleared)
    case Authenticate(h, who, limit) => Move(s, h, Admitted(who, limit))
    case Reject(h) => Move(s, h, Refused)
    case CheckKnown(h) =>
      var st := s.hs[h].stage;
      Move(s, h, if st.limit > 0 && s.hs[h].conn !in s.ix.entries then Unknown(st.user, st.limit) else Passed(st.user))
    case CheckCount(h) =>
      var st := s.hs[h].stage;
      Move(s, h, if CountOf(s.ix, st.user) >= st.limit then Refused else Passed(st.user))
    case Enter(h, addr, now) =>
      var u := s.hs[h].stage.user;
      Move(s, h, Serving(u)).(ix := Registered(s.ix, u, s.hs[h].conn, addr, now))
    case Leave(h) =>
      var u := s.hs[h].stage.user;
      Move(s, h, Done).(ix := Unregistered(s.ix, u, s.hs[h].conn))
    case KickUser(u, reason) => s.(ix := Kicked(s.ix, u, reason))
    case KickSession(u, addr, reason) => s.(ix := KickedSession(s.ix, u, addr, reason))
  }

  /** `tr` lists the states of a run from the start, `es` the steps between them. */
  ghost predicate IsRun(tr: seq<State>, es: seq<Event>) {
    && |tr| == |es| + 1
    && tr[0] == Initial
    && forall i | 0 <= i < |es| :: Enabled(tr[i], es[i]) && tr[i + 1] == Next(tr[i], es[i])
  }

  // ---------------------------------------------------------------- index agreement

  /** Handlers registered for user `u` on connection `c`: the outstanding registrations. */
  ghost function Streams(hs: map<Hid, Handler>, u: User, c: Conn): set<Hid> {
    set h | h in hs && hs[h] == Handler(c, Serving(u))
  }

  ghost predicate ListsMatch(s: State) {
    forall u: User, c: Conn :: multiset(s.ix.Conns(u))[c] == |Streams(s.hs, u, c)|
  }

  ghost predicate NoEmptyList(s: State) {
    forall u | u in s.ix.byUser :: s.ix.byUser[u] != []
  }

  ghost predicate EntriesListed(s: State) {
    forall c | c in s.ix.entries :: c in s.ix.Conns(s.ix.entries[c].username)
  }

  ghost predicate RevokedListed(s: State) {
    forall c | c in s.ix.revoked :: exists u: User :: c in s.ix.Conns(u)
  }

  ghost predicate Agreement(s: State) {
    ListsMatch(s) && NoEmptyList(s) && EntriesListed(s) && RevokedListed(s)
  }

  /** Moves that neither enter nor leave the serving stage keep every outstanding registration. */
  lemma StreamsUnmoved(hs: map<Hid, Handler>, h: Hid, k: Handler, u: User, c: Conn)
    requires !k.stage.Serving? && (h in hs ==> !hs[h].stage.Serving?)
    ensures Streams(hs[h := k], u, c) == Streams(hs, u, c)
  {
  }

  lemma StreamsEnter(hs: map<Hid, Handler>, h: Hid, c: Conn, u: User, v: User, d: Conn)
    requires h in hs && hs[h].conn == c && !hs[h].stage.Serving?
    ensures |Streams(hs[h := Handler(c, Serving(u))], v, d)| == |Streams(hs, v, d)| + if v == u && d == c then 1 else 0
  {
    var more := hs[h := Handler(c, Serving(u))];
    if v == u && d == c {
      assert Streams(more, v, d) == Streams(hs, v, d) + {h};
    } else {
      assert Streams(more, v, d) == Streams(hs, v, d);
    }
  }

  lemma StreamsLeave(hs: map<Hid, Handler>, h: Hid, c: Conn, u: User, v: User, d: Conn)
    requires h in hs && hs[h] == Handler(c, Serving(u))
    ensures |Streams(hs[h := Handler(c, Done)], v, d)| == |Streams(hs, v, d)| - if v == u && d == c then 1 else 0
  {
    var less := hs[h := Handler(c, Done)];
    if v == u && d == c {
      assert Streams(less, v, d) == Streams(hs, v, d) - {h};
    } else {
      assert Streams(less, v, d) == Streams(hs, v, d);
    }
  }

  lemma EnterLists(ix: Index, u: User, c: Conn, addr: string, now: int, v: User)
    ensures Registered(ix, u, c, addr, now).Conns(v) == ix.Conns(v) + if v == u then [c] else []
  {
  }

  lemma EnterAgrees(s: State, e: Event)
    requires Agreement(s) && e.Enter? && Enabled(s, e)
    ensures Agreement(Next(s, e))
  {
    var t := Next(s, e);
    var u, c := s.hs[e.h].stage.user, s.hs[e.h].conn;
    forall v: User, d: Conn ensures multiset(t.ix.Conns(v))[d] == |Streams(t.hs, v, d)| {
      EnterLists(s.ix, u, c, e.addr, e.now, v);
      StreamsEnter(s.hs, e.h, c, u, v, d);
    }
    forall v: User, d | d in s.ix.Conns(v) ensures d in t.ix.Conns(v) {
      EnterLists(s.ix, u, c, e.addr, e.now, v);
    }
    EnterLists(s.ix, u, c, e.addr, e.now, u);
    forall d | d in t.ix.revoked ensures exists v: User :: d in t.ix.Conns(v) {
      var v: User :| d in s.ix.Conns(v);
      assert d in t.ix.Conns(v);
    }
  }

  lemma LeaveKeeps(ix: Index, u: User, c: Conn, v: User, d: Conn)
    requires d in ix.Conns(v) && d != c
    ensures d in Unregistered(ix, u, c).Conns(v)
  {
    RemoveFirstCounts(ix.Conns(u), c);
    assert multiset(ix.Conns(u))[d] == multiset(RemoveFirst(ix.Conns(u), c))[d];
  }

  lemma LeaveCounts(ix: Index, u: User, c: Conn, v: User, d: Conn)
    requires c in ix.Conns(u)
    ensures multiset(Unregistered(ix, u, c).Conns(v))[d] == multiset(ix.Conns(v))[d] - if v == u && d == c then 1 else 0
  {
    RemoveFirstCounts(ix.Conns(u), c);
  }

  lemma LeaveAgrees(s: State, e: Event)
    requires Agreement(s) && e.Leave? && Enabled(s, e)
    ensures Agreement(Next(s, e))
  {
    var t := Next(s, e);
    var u, c := s.hs[e.h].stage.user, s.hs[e.h].conn;
    assert e.h in Streams(s.hs, u, c);
    assert multiset(s.ix.Conns(u))[c] > 0;
    forall v: User, d: Conn ensures multiset(t.ix.Conns(v))[d] == |Streams(t.hs, v, d)| {
      LeaveCounts(s.ix, u, c, v, d);
      StreamsLeave(s.hs, e.h, c, u, v, d);
    }
    forall d | d in t.ix.entries ensures d in t.ix.Conns(t.ix.entries[d].username) {
      LeaveKeeps(s.ix, u, c, s.ix.entries[d].username, d);
    }
    forall d | d in t.ix.revoked ensures exists v: User :: d in t.ix.Conns(v) {
      var v: User :| d in s.ix.Conns(v);
      LeaveKeeps(s.ix, u, c, v, d);
    }
  }

  lemma KickAgrees(s: State, e: Event)
    requires Agreement(s) && (e.KickUser? || e.KickSession?) && Enabled(s, e)
    ensures Agreement(Next(s, e))
  {
    var t := Next(s, e);
    assert t.hs == s.hs && t.ix.byUser == s.ix.byUser && t.ix.entries == s.ix.entries;
    assert forall u: User :: t.ix.Conns(u) == s.ix.Conns(u);
    forall d | d in t.ix.revoked ensures exists v: User :: d in t.ix.Conns(v) {
      if d in s.ix.revoked {
        var v: User :| d in s.ix.Conns(v);
        assert d in t.ix.Conns(v);
      } else {
        assert d in t.ix.Conns(e.u);
      }
    }
  }

  lemma StepAgrees(s: State, e: Event)
    requires Agreement(s) && Enabled(s, e)
    ensures Agreement(Next(s, e))
  {
    if e.Enter? {
      EnterAgrees(s, e);
    } else if e.Leave? {
      LeaveAgrees(s, e);
    } else if e.KickUser? || e.KickSession? {
      KickAgrees(s, e);
    } else {
      var t := Next(s, e);
      forall u: User, c: Conn ensures Streams(t.hs, u, c) == Streams(s.hs, u, c) {
        StreamsUnmoved(s.hs, e.h, t.hs[e.h], u, c);
      }
    }
  }

  /** In every state of every run the three indexes describe exactly the outstanding registrations. */
  lemma {:induction false} IndexAgreement(tr: seq<State>, es: seq<Event>, i: nat)
    requires IsRun(tr, es) && i < |tr|
    ensures Agreement(tr[i])
  {
    if i == 0 {
      forall u: User, c: Conn ensures |Streams(Initial.hs, u, c)| == 0 {
        assert Streams(Initial.hs, u, c) == {};
      }
    } else {
      IndexAgreement(tr, es, i - 1);
      StepAgrees(tr[i - 1], es[i - 1]);
    }
  }

  /** Once no handler is registered, nothing is left behind in any index. */
  lemma NothingLeftBehind(tr: seq<State>, es: seq<Event>, i: nat)
    requires IsRun(tr, es) && i < |tr|
    requires forall h | h in tr[i].hs :: !tr[i].hs[h].stage.Serving?
    ensures tr[i].ix == Index(map[], map[], map[])
  {
    IndexAgreement(tr, es, i);
    var s := tr[i];
    forall u: User, c: Conn ensures c !in s.ix.Conns(u) {
      ListedIffServing(s, u, c);
    }
    assert forall u | u in s.ix.byUser :: s.ix.byUser[u][0] in s.ix.Conns(u);
    assert s.ix.byUser.Keys == {};
    assert s.ix.entries.Keys == {};
    assert s.ix.revoked.Keys == {};
  }

  /** A connection is on a user's list exactly while that user has a stream registered on it. */
  lemma ListedIffServing(s: State, u: User, c: Conn)
    requires Agreement(s)
    ensures c in s.ix.Conns(u) <==> exists h | h in s.hs :: s.hs[h] == Handler(c, Serving(u))
  {
    assert multiset(s.ix.Conns(u))[c] == |Streams(s.hs, u, c)|;
    if c in s.ix.Conns(u) {
      assert c in multiset(s.ix.Conns(u));
      var h :| h in Streams(s.hs, u, c);
      assert s.hs[h] == Handler(c, Serving(u));
    }
    if h :| h in s.hs && s.hs[h] == Handler(c, Serving(u)) {
      assert h in Streams(s.hs, u, c);
      assert c in multiset(s.ix.Conns(u));
    }
  }

  // ---------------------------------------------------------------- device cap

  /** Handlers of `u` that passed the device check and have not registered yet. */
  ghost function Passing(s: State, u: User): set<Hid> {
    set h | h in s.hs && s.hs[h].stage == Passed(u)
  }

  /** Distinct connections on which `u` has passed the check or is registered. */
  ghost function Devices(s: State, u: User): set<Conn> {
    set h | h in s.hs && (s.hs[h].stage == Passed(u) || s.hs[h].stage == Serving(u)) :: s.hs[h].conn
  }

  ghost function ServingConns(s: State, u: User): set<Conn> {
    set h | h in s.hs && s.hs[h].stage == Serving(u) :: s.hs[h].conn
  }

  function UserOf(st: Stage): Option<User> {
    if st.Admitted? || st.Unknown? || st.Passed? || st.Serving? then Some(st.user) else None
  }

  /** The setting in which the cap is promised: the limit of `u` is fixed, and at most `window` handlers of `u`
      are between the check and the registration. */
  ghost predicate CapSetting(s: State, u: User, limit: int, window: nat) {
    && (forall h | h in s.hs && (s.hs[h].stage.Admitted? || s.hs[h].stage.Unknown?) && s.hs[h].stage.user == u ::
          s.hs[h].stage.limit == limit)
    && |Passing(s, u)| <= window
  }

  /** The guard: a handler of `u` skips the count because its connection is known, though not as one of the
      devices of `u`. */
  ghost predicate Slips(s: State, e: Event, u: User) {
    && e.CheckKnown? && e.h in s.hs && s.hs[e.h].stage.Admitted? && s.hs[e.h].stage.user == u
    && s.hs[e.h].conn in s.ix.entries && s.hs[e.h].conn !in Devices(s, u)
  }

  /** Every connection is used by one user. */
  ghost predicate OneUser(s: State, owner: map<Conn, User>) {
    forall h | h in s.hs && UserOf(s.hs[h].stage).Some? ::
      s.hs[h].conn in owner && owner[s.hs[h].conn] == UserOf(s.hs[h].stage).value
  }

  ghost function ConnsOf(hs: map<Hid, Handler>, some: set<Hid>): set<Conn>
    requires some <= hs.Keys
  {
    set h | h in some :: hs[h].conn
  }

  lemma {:induction false} ConnsOfBound(hs: map<Hid, Handler>, some: set<Hid>)
    requires some <= hs.Keys
    ensures |ConnsOf(hs, some)| <= |some|
    decreases some
  {
    if some == {} {
      assert ConnsOf(hs, some) == {};
    } else {
      var k :| k in some;
      ConnsOfBound(hs, some - {k});
      assert ConnsOf(hs, some) == ConnsOf(hs, some - {k}) + {hs[k].conn};
    }
  }

  /** The count compared with the limit is at least the number of distinct serving connections. */
  lemma ServingConnsBound(s: State, u: User)
    requires Agreement(s)
    ensures ServingConns(s, u) == Elements(s.ix.Conns(u))
    ensures |ServingConns(s, u)| <= CountOf(s.ix, u)
  {
    ElementsBound(s.ix.Conns(u));
    forall c ensures c in ServingConns(s, u) <==> c in s.ix.Conns(u) {
      ListedIffServing(s, u, c);
    }
  }

  /** Passing the count check leaves the serving connections and the handlers in the window. */
  lemma PassedDevices(s: State, h: Hid, u: User, limit: int, window: nat)
    requires Agreement(s) && Enabled(s, CheckCount(h)) && s.hs[h].stage == Unknown(u, limit)
    requires CountOf(s.ix, u) < limit && |Passing(Next(s, CheckCount(h)), u)| <= window
    ensures |Devices(Next(s, CheckCount(h)), u)| <= limit - 1 + window
  {
    var t := Next(s, CheckCount(h));
    ServingConnsBound(s, u);
    ConnsOfBound(t.hs, Passing(t, u));
    assert forall k :: (k in s.hs && s.hs[k].stage == Serving(u)) <==> (k in t.hs && t.hs[k].stage == Serving(u));
    assert forall k | k in s.hs :: s.hs[k].conn == t.hs[k].conn;
    assert ServingConns(t, u) == ServingConns(s, u);
    assert Devices(t, u) == ServingConns(t, u) + ConnsOf(t.hs, Passing(t, u));
    assert |Devices(t, u)| <= |ServingConns(t, u)| + |ConnsOf(t.hs, Passing(t, u))|;
  }

  lemma CapStep(s: State, e: Event, u: User, limit: int, window: nat)
    requires Agreement(s) && Enabled(s, e) && limit >= 1 && !Slips(s, e, u)
    requires CapSetting(s, u, limit, window) && CapSetting(Next(s, e), u, limit, window)
    requires |Devices(s, u)| <= limit - 1 + window
    ensures |Devices(Next(s, e), u)| <= limit - 1 + window
  {
    var t := Next(s, e);
    if e.CheckCount? && s.hs[e.h].stage.user == u && t.hs[e.h].stage.Passed? {
      PassedDevices(s, e.h, u, limit, window);
    } else {
      DevicesShrink(s, e, u);
      SubsetCardinality(Devices(t, u), Devices(s, u));
    }
  }

  /** A connection with a live entry already serves its one user, so passing by it adds no device. */
  lemma OneUserNoSlip(s: State, e: Event, owner: map<Conn, User>, u: User)
    requires Agreement(s) && OneUser(s, owner)
    ensures !Slips(s, e, u)
  {
    if e.CheckKnown? && e.h in s.hs && s.hs[e.h].stage.Admitted? && s.hs[e.h].stage.user == u && s.hs[e.h].conn in s.ix.entries {
      var c := s.hs[e.h].conn;
      var v := s.ix.entries[c].username;
      ListedIffServing(s, v, c);
      var k :| k in s.hs && s.hs[k] == Handler(c, Serving(v));
      assert UserOf(s.hs[k].stage) == Some(v);
    }
  }

  /** Every such handler adds a device, whatever the limit and however many there are already. */
  lemma SlipAdds(s: State, e: Event, u: User)
    requires Enabled(s, e) && Slips(s, e, u)
    ensures Devices(Next(s, e), u) == Devices(s, u) + {s.hs[e.h].conn}
    ensures |Devices(Next(s, e), u)| == |Devices(s, u)| + 1
  {
    var t, c := Next(s, e), s.hs[e.h].conn;
    assert t.hs == s.hs[e.h := Handler(c, Passed(u))];
    forall d | d in Devices(s, u) ensures d in Devices(t, u) {
      var h :| h in s.hs && (s.hs[h].stage == Passed(u) || s.hs[h].stage == Serving(u)) && s.hs[h].conn == d;
      assert h in t.hs && t.hs[h] == s.hs[h];
    }
    assert t.hs[e.h].stage == Passed(u) && t.hs[e.h].conn == c;
    assert Devices(t, u) == Devices(s, u) + {c};
  }

  /** Only a passed count check can add a device. */
  lemma DevicesShrink(s: State, e: Event, u: User)
    requires Enabled(s, e)
    requires !(e.CheckCount? && s.hs[e.h].stage.user == u && Next(s, e).hs[e.h].stage.Passed?)
    requires e.CheckKnown? && s.hs[e.h].stage.user == u ==>
               s.hs[e.h].stage.limit > 0 && (s.hs[e.h].conn in s.ix.entries ==> s.hs[e.h].conn in Devices(s, u))
    ensures Devices(Next(s, e), u) <= Devices(s, u)
  {
    var t := Next(s, e);
    forall c | c in Devices(t, u) ensures c in Devices(s, u) {
      var h :| h in t.hs && (t.hs[h].stage == Passed(u) || t.hs[h].stage == Serving(u)) && t.hs[h].conn == c;
      if e.KickUser? || e.KickSession? || h != e.h {
        assert h in s.hs && s.hs[h] == t.hs[h];
      } else {
        assert e.Enter? || e.CheckKnown?;
        if e.Enter? {
          assert s.hs[h].stage == Passed(u) && s.hs[h].conn == c;
        }
      }
    }
  }

  ghost predicate NeverSlips(tr: seq<State>, es: seq<Event>, u: User, i: nat)
    requires i <= |es| < |tr|
  {
    forall k | 0 <= k < i :: !Slips(tr[k], es[k], u)
  }

  /** Main result: however handlers interleave, the devices of `u` never exceed the limit by more than the
      number of handlers that can be inside the check-then-register window, minus one. */
  lemma {:induction false} DeviceCap(tr: seq<State>, es: seq<Event>, u: User, limit: int, window: nat, i: nat)
    requires IsRun(tr, es) && i < |tr| && limit >= 1
    requires (forall k | 0 <= k <= i :: CapSetting(tr[k], u, limit, window)) && NeverSlips(tr, es, u, i)
    ensures |Devices(tr[i], u)| <= limit - 1 + window
  {
    if i == 0 {
      assert Devices(tr[0], u) == {};
    } else {
      var m := i - 1;
      DeviceCap(tr, es, u, limit, window, m);
      IndexAgreement(tr, es, m);
      assert CapSetting(tr[m], u, limit, window) && CapSetting(tr[i], u, limit, window) && tr[i] == Next(tr[m], es[m]);
      assert !Slips(tr[m], es[m], u);
      CapStep(tr[m], es[m], u, limit, window);
    }
  }

  /** The documented cap, when handlers of one user pass through the window one at a time. */
  lemma DocumentedCap(tr: seq<State>, es: seq<Event>, u: User, limit: int, i: nat)
    requires IsRun(tr, es) && i < |tr| && limit >= 1
    requires (forall k | 0 <= k <= i :: CapSetting(tr[k], u, limit, 1)) && NeverSlips(tr, es, u, i)
    ensures |Devices(tr[i], u)| <= limit
  {
    DeviceCap(tr, es, u, limit, 1, i);
  }

  /** With one user per connection nobody slips. */
  lemma OneUserNeverSlips(tr: seq<State>, es: seq<Event>, owner: map<Conn, User>, u: User, i: nat)
    requires IsRun(tr, es) && i <= |es| && forall k | 0 <= k < i :: OneUser(tr[k], owner)
    ensures NeverSlips(tr, es, u, i)
  {
    forall k | 0 <= k < i ensures !Slips(tr[k], es[k], u) {
      IndexAgreement(tr, es, k);
      OneUserNoSlip(tr[k], es[k], owner, u);
    }
  }

  /** The number compared with the limit is the number of devices exactly when no connection of the user
      carries two streams; with shared connections it is larger and devices are refused early. */
  lemma CountIsDevicesIff(s: State, u: User)
    requires Agreement(s)
    ensures CountOf(s.ix, u) >= |ServingConns(s, u)|
    ensures CountOf(s.ix, u) == |ServingConns(s, u)| <==> forall c: Conn :: |Streams(s.hs, u, c)| <= 1
  {
    ServingConnsBound(s, u);
    var list := s.ix.Conns(u);
    ElementsBound(list);
    if i, j :| 0 <= i < j < |list| && list[i] == list[j] {
      assert list == list[..j] + list[j..];
      assert list[i] in multiset(list[..j]) && list[j] in multiset(list[j..]);
      assert multiset(list)[list[i]] >= 2;
    } else {
      forall c: Conn ensures |Streams(s.hs, u, c)| <= 1 {
        OnceEach(list, c);
      }
    }
  }

  lemma {:induction false} OnceEach(list: seq<Conn>, c: Conn)
    requires forall i, j | 0 <= i < j < |list| :: list[i] != list[j]
    ensures multiset(list)[c] <= 1
  {
    if list != [] {
      OnceEach(list[1..], c);
      assert list == [list[0]] + list[1..];
      if list[0] == c {
        assert c !in list[1..];
      }
    }
  }

  // ---------------------------------------------------------------- revocation window

  /** A kick marks every connection on which the user has a stream registered. */
  lemma KickReachesEveryStream(s: State, u: User, reason: string, h: Hid)
    requires Agreement(s) && h in s.hs && s.hs[h].stage == Serving(u)
    ensures s.hs[h].conn in Next(s, KickUser(u, reason)).ix.revoked
    ensures Next(s, KickUser(u, reason)).ix.revoked[s.hs[h].conn] == reason
  {
    ListedIffServing(s, u, s.hs[h].conn);
  }

  /** No handler leaves connection `c` between positions `i` and `j` of the run. */
  ghost predicate NobodyLeaves(tr: seq<State>, es: seq<Event>, c: Conn, i: nat, j: nat)
    requires IsRun(tr, es) && i <= j <= |es|
  {
    forall k | i <= k < j && es[k].Leave? :: tr[k].hs[es[k].h].conn != c
  }

  lemma {:induction false} StaysRevoked(tr: seq<State>, es: seq<Event>, c: Conn, i: nat, j: nat)
    requires IsRun(tr, es) && i <= j <= |es|
    requires c in tr[i].ix.revoked && NobodyLeaves(tr, es, c, i, j)
    ensures c in tr[j].ix.revoked
    decreases j
  {
    if i < j {
      StaysRevoked(tr, es, c, i, j - 1);
      assert tr[j] == Next(tr[j - 1], es[j - 1]);
    }
  }

  lemma {:induction false} RefusedForever(tr: seq<State>, es: seq<Event>, h: Hid, i: nat, j: nat)
    requires IsRun(tr, es) && i <= j < |tr|
    requires h in tr[i].hs && tr[i].hs[h].stage == Refused
    ensures h in tr[j].hs && tr[j].hs[h].stage == Refused
    decreases j
  {
    if i < j {
      RefusedForever(tr, es, h, i, j - 1);
      assert tr[j] == Next(tr[j - 1], es[j - 1]);
    }
  }

  /** From a kick until the first handler leaves connection `c`, `c` stays revoked and a CONNECT on `c`
      that checks for revocation in that window is refused and never registers, in any continuation. */
  lemma RevocationWindow(tr: seq<State>, es: seq<Event>, u: User, reason: string, c: Conn, i: nat, j: nat)
    requires IsRun(tr, es) && i < j <= |es|
    requires es[i] == KickUser(u, reason) && c in tr[i].ix.Conns(u)
    requires NobodyLeaves(tr, es, c, i + 1, j)
    ensures forall m | i < m <= j :: c in tr[m].ix.revoked
    ensures forall m, k | i < m < j && m < k < |tr| && es[m].CheckRevoked? && tr[m].hs[es[m].h].conn == c ::
              es[m].h in tr[k].hs && tr[k].hs[es[m].h].stage == Refused
  {
    assert tr[i + 1] == Next(tr[i], es[i]);
    forall m | i < m <= j ensures c in tr[m].ix.revoked {
      StaysRevoked(tr, es, c, i + 1, m);
    }
    forall m, k | i < m < j && m < k < |tr| && es[m].CheckRevoked? && tr[m].hs[es[m].h].conn == c
      ensures es[m].h in tr[k].hs && tr[k].hs[es[m].h].stage == Refused
    {
      assert tr[m + 1] == Next(tr[m], es[m]);
      RefusedForever(tr, es, es[m].h, m + 1, k);
    }
  }

  /** The step marks `c` as revoked. */
  ghost predicate Marks(s: State, e: Event, c: Conn) {
    || (e.KickUser? && c in s.ix.Conns(e.u))
    || (e.KickSession? && FirstWithAddr(s.ix, s.ix.Conns(e.u), e.addr) == Some(c))
  }

  lemma RevokedStep(s: State, e: Event, c: Conn)
    requires Enabled(s, e)
    ensures c in Next(s, e).ix.revoked <==> Marks(s, e, c) || (c in s.ix.revoked && !(e.Leave? && s.hs[e.h].conn == c))
  {
  }

  /** A kick at `i` marked `c`, and nobody has left `c` between it and `j`. */
  ghost predicate MarkedSince(tr: seq<State>, es: seq<Event>, c: Conn, i: nat, j: nat)
    requires IsRun(tr, es) && i < j <= |es|
  {
    Marks(tr[i], es[i], c) && NobodyLeaves(tr, es, c, i + 1, j)
  }

  lemma MarkedStep(tr: seq<State>, es: seq<Event>, c: Conn, i: nat, j: nat)
    requires IsRun(tr, es) && i < j < |es|
    ensures MarkedSince(tr, es, c, i, j + 1) <==> MarkedSince(tr, es, c, i, j) && !(es[j].Leave? && tr[j].hs[es[j].h].conn == c)
  {
  }

  ghost predicate EverMarked(tr: seq<State>, es: seq<Event>, c: Conn, j: nat)
    requires IsRun(tr, es) && j <= |es|
  {
    exists i | 0 <= i < j :: MarkedSince(tr, es, c, i, j)
  }

  lemma EverMarkedStep(tr: seq<State>, es: seq<Event>, c: Conn, j: nat)
    requires IsRun(tr, es) && j < |es|
    ensures EverMarked(tr, es, c, j + 1)
            <==> Marks(tr[j], es[j], c) || (EverMarked(tr, es, c, j) && !(es[j].Leave? && tr[j].hs[es[j].h].conn == c))
  {
    assert Marks(tr[j], es[j], c) <==> MarkedSince(tr, es, c, j, j + 1);
    if EverMarked(tr, es, c, j + 1) && !Marks(tr[j], es[j], c) {
      var i :| 0 <= i < j + 1 && MarkedSince(tr, es, c, i, j + 1);
      MarkedStep(tr, es, c, i, j);
    }
    if EverMarked(tr, es, c, j) && !(es[j].Leave? && tr[j].hs[es[j].h].conn == c) {
      var i :| 0 <= i < j && MarkedSince(tr, es, c, i, j);
      MarkedStep(tr, es, c, i, j);
    }
  }

  /** Main result: a connection is revoked if and only if some kick marked it and no handler has left it since. */
  lemma {:induction false} RevokedIff(tr: seq<State>, es: seq<Event>, c: Conn, j: nat)
    requires IsRun(tr, es) && j <= |es|
    ensures c in tr[j].ix.revoked <==> EverMarked(tr, es, c, j)
  {
    if j > 0 {
      var m := j - 1;
      RevokedIff(tr, es, c, m);
      assert tr[j] == Next(tr[m], es[m]);
      RevokedStep(tr[m], es[m], c);
      EverMarkedStep(tr, es, c, m);
    }
  }

  /** So the mark goes with the first handler that leaves, although others, of whatever user, are still served. */
  lemma RevocationLapses(s: State, h: Hid, k: Hid, u: User, v: User, c: Conn)
    requires Agreement(s) && h != k && h in Streams(s.hs, u, c) && k in Streams(s.hs, v, c) && c in s.ix.revoked
    ensures Enabled(s, Leave(h))
    ensures c !in Next(s, Leave(h)).ix.revoked
    ensures k in Streams(Next(s, Leave(h)).hs, v, c) && c in Next(s, Leave(h)).ix.Conns(v)
  {
    StepAgrees(s, Leave(h));
    ListedIffServing(Next(s, Leave(h)), v, c);
  }
}
