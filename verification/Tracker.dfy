/** The connection tracker of the endpoint: indexes of live connections, revocation marks, lifetime totals.

    Every lock section of the tracker is given twice: as a function on values, which the concurrent
    models reuse as one atomic step, and as a method of `ConnTracker` that does the work in place
    and is proved to compute that function. */
module Tracker {
  import opened Sums

  type Conn = nat
  type User = string

  datatype Option<+T> = None | Some(value: T)

  datatype Entry = Entry(username: User, remoteAddr: string, connectedAt: int,
                         bytesIn: nat, bytesOut: nat, openTunnels: int, totalTunnels: nat)

  datatype Totals = Totals(bytesIn: nat, bytesOut: nat, totalTunnels: nat, firstSeenAt: int, flushedBytes: nat) {
    function Unflushed(): nat {
      if bytesIn + bytesOut > flushedBytes then bytesIn + bytesOut - flushedBytes else 0
    }
  }

  datatype Stats = Stats(username: User, activeConns: nat, bytesIn: nat, bytesOut: nat,
                         openTunnels: int, totalTunnels: nat, firstSeenAt: int)

  /** What the mutex `mu` protects: live entries, per-user lists and revocation marks. */
  datatype Index = Index(entries: map<Conn, Entry>, byUser: map<User, seq<Conn>>, revoked: map<Conn, string>) {
    function Conns(u: User): seq<Conn> {
      if u in byUser then byUser[u] else []
    }
  }

  function RemoveFirst(s: seq<Conn>, c: Conn): seq<Conn> {
    if s == [] then [] else if s[0] == c then s[1..] else [s[0]] + RemoveFirst(s[1..], c)
  }

  /** Removing the first occurrence takes exactly one copy out and leaves every other connection alone. */
  lemma {:induction false} RemoveFirstCounts(s: seq<Conn>, c: Conn)
    ensures multiset(RemoveFirst(s, c)) == multiset(s) - multiset{c}
  {
    if s != [] {
      assert s == [s[0]] + s[1..];
      if s[0] != c {
        RemoveFirstCounts(s[1..], c);
      }
    }
  }

  lemma {:induction false} RemoveFirstAt(s: seq<Conn>, c: Conn, i: nat)
    requires i < |s| && s[i] == c && c !in s[..i]
    ensures RemoveFirst(s, c) == s[..i] + s[i + 1..]
  {
    if i > 0 {
      assert s[0] == s[..i][0];
      assert s[1..][..i - 1] == s[..i][1..];
      RemoveFirstAt(s[1..], c, i - 1);
      assert s[1..][i..] == s[i + 1..];
      assert s[..i] == [s[0]] + s[1..][..i - 1];
    }
  }

  lemma {:induction false} RemoveFirstMissing(s: seq<Conn>, c: Conn)
    requires c !in s
    ensures RemoveFirst(s, c) == s
  {
    if s != [] {
      RemoveFirstMissing(s[1..], c);
    }
  }

  function NewEntry(u: User, addr: string, now: int): Entry {
    Entry(u, addr, now, 0, 0, 0, 0)
  }

  /** Section of `Register` under `mu`. */
  function Registered(ix: Index, u: User, c: Conn, addr: string, now: int): Index {
    Index(ix.entries[c := NewEntry(u, addr, now)], ix.byUser[u := ix.Conns(u) + [c]], ix.revoked)
  }

  /** Section of `Unregister` under `mu`. */
  function Unregistered(ix: Index, u: User, c: Conn): Index {
    var rest := RemoveFirst(ix.Conns(u), c);
    Index(ix.entries - {c}, if rest == [] then ix.byUser - {u} else ix.byUser[u := rest], ix.revoked - {c})
  }

  /** Section of `KickUser` under `mu`. */
  function Kicked(ix: Index, u: User, reason: string): Index {
    ix.(revoked := ix.revoked + map c | c in ix.Conns(u) :: reason)
  }

  predicate HasAddr(ix: Index, c: Conn, addr: string) {
    c in ix.entries && ix.entries[c].remoteAddr == addr
  }

  predicate NoneHasAddr(ix: Index, s: seq<Conn>, addr: string) {
    forall c | c in s :: !HasAddr(ix, c, addr)
  }

  /** The first listed connection with a live entry at that address. */
  function FirstWithAddr(ix: Index, s: seq<Conn>, addr: string): (r: Option<Conn>)
    ensures r.Some? ==> r.value in s && HasAddr(ix, r.value, addr)
    ensures r.None? <==> NoneHasAddr(ix, s, addr)
  {
    if s == [] then None
    else if HasAddr(ix, s[0], addr) then Some(s[0])
    else FirstWithAddr(ix, s[1..], addr)
  }

  lemma {:induction false} FirstIs(ix: Index, s: seq<Conn>, addr: string, i: nat)
    requires i < |s| && HasAddr(ix, s[i], addr) && NoneHasAddr(ix, s[..i], addr)
    ensures FirstWithAddr(ix, s, addr) == Some(s[i])
  {
    if i > 0 {
      assert s[0] in s[..i] && s[..i][1..] == s[1..][..i - 1];
      FirstIs(ix, s[1..], addr, i - 1);
    }
  }

  /** Section of `KickSession` under `mu`. */
  function KickedSession(ix: Index, u: User, addr: string, reason: string): Index {
    match FirstWithAddr(ix, ix.Conns(u), addr)
    case None => ix
    case Some(c) => ix.(revoked := ix.revoked[c := reason])
  }

  function CountOf(ix: Index, u: User): nat {
    |ix.Conns(u)|
  }

  /** The live entries of one user. */
  ghost function Owned(entries: map<Conn, Entry>, u: User): set<Conn> {
    set c | c in entries && entries[c].username == u
  }

  /** One counter of the live entries of one user. */
  ghost function Live(entries: map<Conn, Entry>, u: User, counter: Entry -> int): map<Conn, int> {
    map c | c in Owned(entries, u) :: counter(entries[c])
  }

  ghost const InOf: Entry -> int := (e: Entry) => e.bytesIn
  ghost const OutOf: Entry -> int := (e: Entry) => e.bytesOut
  ghost const OpenOf: Entry -> int := (e: Entry) => e.openTunnels

  ghost function Users(entries: map<Conn, Entry>): set<User> {
    set c | c in entries :: entries[c].username
  }

  /** Sums per-user connection counts over a list of records. */
  function ActiveSum(out: seq<Stats>): nat {
    if out == [] then 0 else ActiveSum(out[..|out| - 1]) + out[|out| - 1].activeConns
  }

  /** Live aggregation: what `UserStats` knows of user `u` after visiting `entries`. */
  ghost predicate Aggregates(s: Stats, entries: map<Conn, Entry>, u: User) {
    && s.username == u
    && s.activeConns == |Owned(entries, u)|
    && s.bytesIn == SumValues(Live(entries, u, InOf))
    && s.bytesOut == SumValues(Live(entries, u, OutOf))
    && s.openTunnels == SumValues(Live(entries, u, OpenOf))
    && s.totalTunnels == 0 && s.firstSeenAt == 0
  }

  /** What `UserStats` reports for user `u`: live counts, overlaid with lifetime totals when they exist. */
  ghost predicate Reports(s: Stats, entries: map<Conn, Entry>, totals: map<User, Totals>, u: User) {
    && s.username == u
    && s.activeConns == |Owned(entries, u)|
    && s.openTunnels == SumValues(Live(entries, u, OpenOf))
    && (if u in totals
        then s.bytesIn == totals[u].bytesIn && s.bytesOut == totals[u].bytesOut
             && s.totalTunnels == totals[u].totalTunnels && s.firstSeenAt == totals[u].firstSeenAt
        else Aggregates(s, entries, u))
  }

  /** Visiting one more entry adds its counter to its owner's sum and to nobody else's. */
  lemma VisitEntry(seen: map<Conn, Entry>, c: Conn, e: Entry, u: User, counter: Entry -> int)
    requires c !in seen
    ensures u != e.username ==> Live(seen[c := e], u, counter) == Live(seen, u, counter)
    ensures u == e.username ==>
              SumValues(Live(seen[c := e], u, counter)) == SumValues(Live(seen, u, counter)) + counter(e)
    ensures |Owned(seen[c := e], u)| == |Owned(seen, u)| + if u == e.username then 1 else 0
  {
    var more := seen[c := e];
    if u == e.username {
      assert Owned(more, u) == Owned(seen, u) + {c};
      SumInsert(Live(seen, u, counter), c, counter(e));
      assert Live(more, u, counter) == Live(seen, u, counter)[c := counter(e)];
    } else {
      assert Owned(more, u) == Owned(seen, u);
    }
  }

  /** A visited entry turns the aggregate of the earlier entries into the aggregate of all of them. */
  lemma AggregateStep(s: Stats, seen: map<Conn, Entry>, c: Conn, e: Entry, u: User)
    requires c !in seen && Aggregates(s, seen, u)
    ensures u != e.username ==> Aggregates(s, seen[c := e], u)
    ensures u == e.username ==>
              Aggregates(s.(activeConns := s.activeConns + 1, bytesIn := s.bytesIn + e.bytesIn,
                            bytesOut := s.bytesOut + e.bytesOut, openTunnels := s.openTunnels + e.openTunnels),
                         seen[c := e], u)
  {
    VisitEntry(seen, c, e, u, InOf);
    VisitEntry(seen, c, e, u, OutOf);
    VisitEntry(seen, c, e, u, OpenOf);
  }

  /** A user with no visited entry aggregates to zero. */
  lemma NothingOwned(entries: map<Conn, Entry>, u: User)
    requires u !in Users(entries)
    ensures Aggregates(Stats(u, 0, 0, 0, 0, 0, 0), entries, u)
  {
    assert Owned(entries, u) == {};
    assert Live(entries, u, InOf) == map[];
    assert Live(entries, u, OutOf) == map[];
    assert Live(entries, u, OpenOf) == map[];
  }

  lemma UsersInsert(seen: map<Conn, Entry>, c: Conn, e: Entry)
    requires c !in seen
    ensures Users(seen[c := e]) == Users(seen) + {e.username}
  {
    assert seen[c := e][c].username == e.username;
    forall u | u in Users(seen) ensures u in Users(seen[c := e]) {
      var d :| d in seen && seen[d].username == u;
      assert seen[c := e][d].username == u;
    }
  }

  function StatsFor(live: map<User, Stats>, u: User): Stats {
    if u in live then live[u] else Stats(u, 0, 0, 0, 0, 0, 0)
  }

  /** The live records after one more entry. */
  function Counted(live: map<User, Stats>, e: Entry): map<User, Stats> {
    var s := StatsFor(live, e.username);
    live[e.username := s.(activeConns := s.activeConns + 1, bytesIn := s.bytesIn + e.bytesIn,
                          bytesOut := s.bytesOut + e.bytesOut, openTunnels := s.openTunnels + e.openTunnels)]
  }

  ghost predicate LiveOf(live: map<User, Stats>, entries: map<Conn, Entry>) {
    && live.Keys == Users(entries)
    && forall u | u in live :: Aggregates(live[u], entries, u)
  }

  lemma CountedRecord(live: map<User, Stats>, seen: map<Conn, Entry>, c: Conn, e: Entry, u: User)
    requires c !in seen && LiveOf(live, seen) && u in Counted(live, e)
    ensures Aggregates(Counted(live, e)[u], seen[c := e], u)
  {
    if u !in live {
      NothingOwned(seen, u);
    }
    AggregateStep(StatsFor(live, u), seen, c, e, u);
  }

  lemma CountedAggregates(live: map<User, Stats>, seen: map<Conn, Entry>, c: Conn, e: Entry)
    requires c !in seen && LiveOf(live, seen)
    ensures LiveOf(Counted(live, e), seen[c := e])
  {
    UsersInsert(seen, c, e);
    forall u | u in Counted(live, e) ensures Aggregates(Counted(live, e)[u], seen[c := e], u) {
      CountedRecord(live, seen, c, e, u);
    }
  }

  /** The record of one user once lifetime totals have replaced the live byte counts. */
  function Overlaid(live: map<User, Stats>, totals: map<User, Totals>, u: User): Stats {
    var s := StatsFor(live, u);
    if u in totals
    then s.(bytesIn := totals[u].bytesIn, bytesOut := totals[u].bytesOut,
            totalTunnels := totals[u].totalTunnels, firstSeenAt := totals[u].firstSeenAt)
    else s
  }

  lemma OverlaidReports(live: map<User, Stats>, entries: map<Conn, Entry>, totals: map<User, Totals>, u: User)
    requires LiveOf(live, entries)
    ensures Reports(Overlaid(live, totals, u), entries, totals, u)
  {
    if u !in live {
      NothingOwned(entries, u);
    }
  }

  ghost function Names(out: seq<Stats>): set<User> {
    set i | 0 <= i < |out| :: out[i].username
  }

  lemma NamesAppend(out: seq<Stats>, s: Stats)
    ensures Names(out + [s]) == Names(out) + {s.username}
  {
    var more := out + [s];
    assert more[|out|].username == s.username;
    forall u | u in Names(out) ensures u in Names(more) {
      var i :| 0 <= i < |out| && out[i].username == u;
      assert more[i].username == u;
    }
  }

  ghost predicate DistinctNames(out: seq<Stats>) {
    forall i, j | 0 <= i < j < |out| :: out[i].username != out[j].username
  }

  lemma OwnedRest(entries: map<Conn, Entry>, u: User, v: User)
    requires u != v
    ensures Owned(entries - Owned(entries, u), v) == Owned(entries, v)
  {
  }

  lemma OwnedSplit(entries: map<Conn, Entry>, u: User)
    ensures |entries| == |Owned(entries, u)| + |entries - Owned(entries, u)|
  {
    var mine := Owned(entries, u);
    var rest := entries - mine;
    assert mine <= entries.Keys && rest.Keys == entries.Keys - mine;
    assert |entries.Keys| == |mine| + |rest.Keys|;
  }

  /** One record per user, each counting its own live entries, adds up to all live entries. */
  lemma {:induction false} ActivePartition(out: seq<Stats>, entries: map<Conn, Entry>)
    requires DistinctNames(out)
    requires forall i | 0 <= i < |out| :: out[i].activeConns == |Owned(entries, out[i].username)|
    requires forall c | c in entries :: exists i | 0 <= i < |out| :: out[i].username == entries[c].username
    ensures ActiveSum(out) == |entries|
  {
    if out == [] {
      assert entries == map[];
    } else {
      var n := |out| - 1;
      var u, front := out[n].username, out[..n];
      var rest := entries - Owned(entries, u);
      forall i | 0 <= i < n ensures front[i].activeConns == |Owned(rest, front[i].username)| {
        OwnedRest(entries, u, out[i].username);
      }
      forall c | c in rest ensures exists i | 0 <= i < |front| :: front[i].username == rest[c].username {
        var i :| 0 <= i < |out| && out[i].username == entries[c].username;
        assert i != n;
        assert front[i] == out[i];
      }
      ActivePartition(front, rest);
      OwnedSplit(entries, u);
    }
  }

  // ---------------------------------------------------------------- totals and counters, on values

  /** Section of `Register` under `totalsMu`. */
  function WithTotals(totals: map<User, Totals>, u: User, now: int): map<User, Totals> {
    if u in totals then totals else totals[u := Totals(0, 0, 0, now, 0)]
  }

  function EntryPlus(e: Entry, inc: nat, out: nat): Entry {
    e.(bytesIn := e.bytesIn + inc, bytesOut := e.bytesOut + out)
  }

  function TotalsPlus(totals: map<User, Totals>, u: User, inc: nat, out: nat): map<User, Totals> {
    if u in totals
    then totals[u := totals[u].(bytesIn := totals[u].bytesIn + inc, bytesOut := totals[u].bytesOut + out)]
    else totals
  }

  function EntryOpened(e: Entry): Entry {
    e.(openTunnels := e.openTunnels + 1, totalTunnels := e.totalTunnels + 1)
  }

  function TotalsOpened(totals: map<User, Totals>, u: User): map<User, Totals> {
    if u in totals then totals[u := totals[u].(totalTunnels := totals[u].totalTunnels + 1)] else totals
  }

  function TotalsReset(totals: map<User, Totals>, u: User): map<User, Totals> {
    if u in totals then totals[u := totals[u].(bytesIn := 0, bytesOut := 0, flushedBytes := 0)] else totals
  }

  function EntryReset(e: Entry, u: User): Entry {
    if e.username == u then e.(bytesIn := 0, bytesOut := 0) else e
  }

  /** A user's counters once the watermark has caught up with the bytes. */
  function Settled(t: Totals): Totals {
    t.(flushedBytes := t.flushedBytes + t.Unflushed())
  }

  function DeltaOf(totals: map<User, Totals>, u: User): nat {
    if u in totals then totals[u].Unflushed() else 0
  }

  ghost function Named(pendings: seq<(User, nat)>): set<User> {
    set i | 0 <= i < |pendings| :: pendings[i].0
  }

  lemma NamedAppend(pendings: seq<(User, nat)>, p: (User, nat))
    ensures Named(pendings + [p]) == Named(pendings) + {p.0}
  {
    var more := pendings + [p];
    assert more[|pendings|].0 == p.0;
    forall u | u in Named(pendings) ensures u in Named(more) {
      var i :| 0 <= i < |pendings| && pendings[i].0 == u;
      assert more[i].0 == u;
    }
  }

  /** `pendings` names each user of `done` with a positive delta exactly once, with that delta. */
  ghost predicate ListsDeltas(pendings: seq<(User, nat)>, totals: map<User, Totals>, done: set<User>) {
    && (forall i | 0 <= i < |pendings| :: pendings[i].1 == DeltaOf(totals, pendings[i].0))
    && (forall i | 0 <= i < |pendings| :: pendings[i].0 !in Named(pendings[..i]))
    && (forall u :: u in Named(pendings) <==> u in done && DeltaOf(totals, u) > 0)
  }

  lemma ListOneMore(pendings: seq<(User, nat)>, totals: map<User, Totals>, done: set<User>, u: User)
    requires ListsDeltas(pendings, totals, done) && u !in done
    ensures DeltaOf(totals, u) == 0 ==> ListsDeltas(pendings, totals, done + {u})
    ensures DeltaOf(totals, u) > 0 ==> ListsDeltas(pendings + [(u, DeltaOf(totals, u))], totals, done + {u})
  {
    var more := pendings + [(u, DeltaOf(totals, u))];
    NamedAppend(pendings, (u, DeltaOf(totals, u)));
    assert more[..|pendings|] == pendings;
    assert forall i | 0 <= i < |pendings| :: more[..i] == pendings[..i];
  }

  /** What one undisturbed flush does: every watermark catches up, and each row grows by its user's delta, or by
      nothing if its write failed. */
  ghost predicate Flushed(totals: map<User, Totals>, used: map<User, nat>, totals': map<User, Totals>, used': map<User, nat>) {
    && totals'.Keys == totals.Keys && (forall u | u in totals :: totals'[u] == Settled(totals[u]))
    && used'.Keys == used.Keys && (forall u | u in used :: used'[u] == used[u] || used'[u] == used[u] + DeltaOf(totals, u))
  }

  /** The traffic columns of the user store. A write can fail; a write for a missing row changes nothing. */
  class TrafficStore {
    var used: map<User, nat>
    const reliable: bool

    constructor (reliable: bool)
      ensures this.reliable == reliable && used == map[]
    {
      this.reliable := reliable;
      used := map[];
    }

    method AddTraffic(u: User, n: nat) returns (ok: bool)
      modifies this
      ensures reliable ==> ok
      ensures used == if ok && u in old(used) then old(used)[u := old(used)[u] + n] else old(used)
    {
      var fails: bool := *;
      ok := reliable || !fails;
      if ok && u in used {
        used := used[u := used[u] + n];
      }
    }
  }

  class ConnTracker {
    var entries: map<Conn, Entry>
    var byUser: map<User, seq<Conn>>
    var revoked: map<Conn, string>
    var totals: map<User, Totals>

    function Ix(): Index
      reads this
    {
      Index(entries, byUser, revoked)
    }

    constructor ()
      ensures Ix() == Index(map[], map[], map[]) && totals == map[]
    {
      entries, byUser, revoked, totals := map[], map[], map[], map[];
    }

    /** `None` stands for a request without a raw connection: it is not tracked. */
    method Register(username: User, conn: Option<Conn>, addr: string, now: int)
      modifies this
      ensures conn.None? ==> Ix() == old(Ix()) && totals == old(totals)
      ensures conn.Some? ==> Ix() == Registered(old(Ix()), username, conn.value, addr, now)
      ensures conn.Some? ==> totals == WithTotals(old(totals), username, now)
    {
      if conn.None? {
        return;
      }
      var c := conn.value;
      entries := entries[c := NewEntry(username, addr, now)];
      var list := if username in byUser then byUser[username] else [];
      byUser := byUser[username := list + [c]];
      if username !in totals {
        totals := totals[username := Totals(0, 0, 0, now, 0)];
      }
    }

    method Unregister(username: User, conn: Option<Conn>)
      modifies this
      ensures totals == old(totals)
      ensures conn.None? ==> Ix() == old(Ix())
      ensures conn.Some? ==> Ix() == Unregistered(old(Ix()), username, conn.value)
    {
      if conn.None? {
        return;
      }
      var c := conn.value;
      entries := entries - {c};
      var list := if username in byUser then byUser[username] else [];
      var i := 0;
      while i < |list| && list[i] != c
        invariant 0 <= i <= |list|
        invariant c !in list[..i]
      {
        i := i + 1;
      }
      if i < |list| {
        RemoveFirstAt(list, c, i);
        byUser := byUser[username := list[..i] + list[i + 1..]];
      } else {
        assert list[..i] == list;
        RemoveFirstMissing(list, c);
      }
      if (if username in byUser then byUser[username] else []) == [] {
        byUser := byUser - {username};
      }
      assert byUser == Unregistered(old(Ix()), username, c).byUser;
      revoked := revoked - {c};
    }

    method KickUser(username: User, reason: string) returns (list: seq<Conn>)
      modifies this`revoked
      ensures Ix() == Kicked(old(Ix()), username, reason)
      ensures list == old(Ix()).Conns(username)
    {
      list := if username in byUser then byUser[username] else [];
      var i := 0;
      while i < |list|
        invariant 0 <= i <= |list|
        invariant revoked == old(revoked) + map c | c in list[..i] :: reason
      {
        assert list[..i + 1] == list[..i] + [list[i]];
        revoked := revoked[list[i] := reason];
        i := i + 1;
      }
      assert list[..i] == list;
    }

    method KickSession(username: User, addr: string, reason: string) returns (found: bool)
      modifies this`revoked
      ensures Ix() == KickedSession(old(Ix()), username, addr, reason)
      ensures found <==> exists c | c in old(Ix()).Conns(username) :: HasAddr(old(Ix()), c, addr)
    {
      var list := if username in byUser then byUser[username] else [];
      var i := 0;
      found := false;
      while i < |list| && !HasAddr(Ix(), list[i], addr)
        invariant 0 <= i <= |list|
        invariant NoneHasAddr(Ix(), list[..i], addr)
      {
        assert list[..i + 1] == list[..i] + [list[i]];
        i := i + 1;
      }
      if i < |list| {
        FirstIs(Ix(), list, addr, i);
        revoked := revoked[list[i] := reason];
        found := true;
      } else {
        assert list[..i] == list;
      }
    }

    method AddBytes(conn: Option<Conn>, inc: nat, out: nat)
      modifies this`entries, this`totals
      ensures conn.None? || conn.value !in old(entries) ==> entries == old(entries) && totals == old(totals)
      ensures conn.Some? && conn.value in old(entries) ==>
                && entries == old(entries)[conn.value := EntryPlus(old(entries)[conn.value], inc, out)]
                && totals == TotalsPlus(old(totals), old(entries)[conn.value].username, inc, out)
    {
      if conn.None? || conn.value !in entries {
        return;
      }
      var e := entries[conn.value];
      entries := entries[conn.value := e.(bytesIn := e.bytesIn + inc, bytesOut := e.bytesOut + out)];
      if e.username in totals {
        var t := totals[e.username];
        totals := totals[e.username := t.(bytesIn := t.bytesIn + inc, bytesOut := t.bytesOut + out)];
      }
    }

    method TunnelOpened(conn: Option<Conn>)
      modifies this`entries, this`totals
      ensures conn.None? || conn.value !in old(entries) ==> entries == old(entries) && totals == old(totals)
      ensures conn.Some? && conn.value in old(entries) ==>
                && entries == old(entries)[conn.value := EntryOpened(old(entries)[conn.value])]
                && totals == TotalsOpened(old(totals), old(entries)[conn.value].username)
    {
      if conn.None? || conn.value !in entries {
        return;
      }
      var e := entries[conn.value];
      entries := entries[conn.value := e.(openTunnels := e.openTunnels + 1, totalTunnels := e.totalTunnels + 1)];
      if e.username in totals {
        var t := totals[e.username];
        totals := totals[e.username := t.(totalTunnels := t.totalTunnels + 1)];
      }
    }

    /** Aggregates live entries, then overlays lifetime totals. The two passes are separate lock sections, so
        `entries` is what the first one saw and `totals` what the second one saw, possibly later. */
    static method UserStats(entries: map<Conn, Entry>, totals: map<User, Totals>) returns (out: seq<Stats>)
      ensures DistinctNames(out)
      ensures Names(out) == Users(entries) + totals.Keys
      ensures forall i | 0 <= i < |out| :: Reports(out[i], entries, totals, out[i].username)
      ensures ActiveSum(out) == |entries|
    {
      var base := LiveStats(entries);
      var live := Overlay(base, totals);
      forall u | u in live ensures Reports(live[u], entries, totals, u) {
        OverlaidReports(base, entries, totals, u);
      }
      out := Records(live);
      forall i | 0 <= i < |out| ensures Reports(out[i], entries, totals, out[i].username) {
        assert out[i].username in Names(out);
      }
      forall c | c in entries ensures exists i | 0 <= i < |out| :: out[i].username == entries[c].username {
        assert entries[c].username in Names(out);
      }
      ActivePartition(out, entries);
    }

    /** Second pass of `UserStats`. */
    static method Overlay(base: map<User, Stats>, totals: map<User, Totals>) returns (live: map<User, Stats>)
      ensures live.Keys == base.Keys + totals.Keys
      ensures forall u | u in live :: live[u] == Overlaid(base, totals, u)
    {
      live := base;
      var todo := totals.Keys;
      while todo != {}
        invariant todo <= totals.Keys
        invariant live.Keys == base.Keys + (totals.Keys - todo)
        invariant forall u | u in live :: live[u] == if u in todo then base[u] else Overlaid(base, totals, u)
        decreases todo
      {
        var u :| u in todo;
        live := live[u := Overlaid(base, totals, u)];
        todo := todo - {u};
      }
    }

    /** First pass of `UserStats`. */
    static method LiveStats(entries: map<Conn, Entry>) returns (live: map<User, Stats>)
      ensures LiveOf(live, entries)
    {
      live := map[];
      var todo := entries.Keys;
      ghost var seen: map<Conn, Entry> := map[];
      while todo != {}
        invariant todo <= entries.Keys
        invariant seen.Keys == entries.Keys - todo && forall c | c in seen :: seen[c] == entries[c]
        invariant LiveOf(live, seen)
        decreases todo
      {
        var c :| c in todo;
        CountedAggregates(live, seen, c, entries[c]);
        live := Counted(live, entries[c]);
        seen := seen[c := entries[c]];
        todo := todo - {c};
      }
      assert seen == entries;
    }

    /** Flattens the per-user records into a list, in no particular order. */
    static method Records(live: map<User, Stats>) returns (out: seq<Stats>)
      requires forall u | u in live :: live[u].username == u
      ensures DistinctNames(out)
      ensures Names(out) == live.Keys
      ensures forall i | 0 <= i < |out| && out[i].username in live :: out[i] == live[out[i].username]
    {
      out := [];
      var todo := live.Keys;
      while todo != {}
        invariant todo <= live.Keys
        invariant DistinctNames(out)
        invariant Names(out) == live.Keys - todo
        invariant forall i | 0 <= i < |out| && out[i].username in live :: out[i] == live[out[i].username]
        decreases todo
      {
        var u :| u in todo;
        forall i | 0 <= i < |out| ensures out[i].username != u {
          assert out[i].username in Names(out);
        }
        NamesAppend(out, live[u]);
        out := out + [live[u]];
        todo := todo - {u};
      }
    }

    /** Zeroes a user's traffic counters: lifetime totals first, then the live entries. */
    method ResetUserTraffic(username: User)
      modifies this`entries, this`totals
      ensures totals == TotalsReset(old(totals), username)
      ensures entries == map c | c in old(entries) :: EntryReset(old(entries)[c], username)
    {
      if username in totals {
        totals := totals[username := totals[username].(bytesIn := 0, bytesOut := 0, flushedBytes := 0)];
      }
      ghost var zeroed := totals;
      var todo := entries.Keys;
      while todo != {}
        invariant totals == zeroed
        invariant todo <= entries.Keys == old(entries).Keys
        invariant forall c | c in todo :: entries[c] == old(entries)[c]
        invariant forall c | c in entries.Keys - todo :: entries[c] == EntryReset(old(entries)[c], username)
        decreases todo
      {
        var c :| c in todo;
        if entries[c].username == username {
          entries := entries[c := entries[c].(bytesIn := 0, bytesOut := 0)];
        }
        todo := todo - {c};
      }
    }

    /** Moves every user's unflushed bytes to the store; a failed write loses that user's delta. */
    method FlushOnce(store: TrafficStore)
      modifies this`totals, store
      ensures Flushed(old(totals), old(store.used), totals, store.used)
      ensures forall u | u in totals :: totals[u].Unflushed() == 0
      ensures store.reliable ==> forall u | u in store.used :: store.used[u] == old(store.used)[u] + DeltaOf(old(totals), u)
    {
      var pendings := TakeDeltas();
      var k := 0;
      ghost var flushed := totals;
      while k < |pendings|
        invariant totals == flushed
        invariant 0 <= k <= |pendings|
        invariant store.used.Keys == old(store.used).Keys
        invariant forall u | u in store.used && u !in Named(pendings[..k]) :: store.used[u] == old(store.used)[u]
        invariant forall u | u in store.used && u in Named(pendings[..k]) ::
                    || store.used[u] == old(store.used)[u] + DeltaOf(old(totals), u)
                    || (!store.reliable && store.used[u] == old(store.used)[u])
      {
        assert pendings[..k + 1] == pendings[..k] + [pendings[k]];
        NamedAppend(pendings[..k], pendings[k]);
        var ok := store.AddTraffic(pendings[k].0, pendings[k].1);
        k := k + 1;
      }
      assert pendings[..k] == pendings;
    }

    /** Section of `flushOnce` under `totalsMu`: lists every positive delta and raises the watermarks. */
    method TakeDeltas() returns (pendings: seq<(User, nat)>)
      modifies this`totals
      ensures totals.Keys == old(totals).Keys
      ensures forall u | u in totals :: totals[u] == Settled(old(totals)[u])
      ensures ListsDeltas(pendings, old(totals), totals.Keys)
    {
      pendings := [];
      var todo := totals.Keys;
      while todo != {}
        invariant todo <= totals.Keys == old(totals).Keys
        invariant forall u | u in totals :: totals[u] == if u in todo then old(totals)[u] else Settled(old(totals)[u])
        invariant ListsDeltas(pendings, old(totals), totals.Keys - todo)
        decreases todo
      {
        var u :| u in todo;
        var t := totals[u];
        var total := t.bytesIn + t.bytesOut;
        ListOneMore(pendings, old(totals), totals.Keys - todo, u);
        assert totals.Keys - (todo - {u}) == totals.Keys - todo + {u};
        if total > t.flushedBytes {
          pendings := pendings + [(u, total - t.flushedBytes)];
          totals := totals[u := t.(flushedBytes := total)];
        }
        todo := todo - {u};
      }
    }
  }
}
