/** What each admission check decides, told by the events of a run: who is refused, who goes on, and which
    connection a session kick reaches. */
module Decisions {
  import opened Tracker
  import opened Admission

  /** A CONNECT is refused as revoked if and only if some kick marked its own connection and no handler has left
      that connection since; every other one goes on. */
  lemma RevocationDecides(tr: seq<State>, es: seq<Event>, i: nat)
    requires IsRun(tr, es) && i < |es| && es[i].CheckRevoked?
    ensures var h := es[i].h;
            tr[i + 1].hs[h].stage == if EverMarked(tr, es, tr[i].hs[h].conn, i) then Refused else Cleared
  {
    RevokedIff(tr, es, tr[i].hs[es[i].h].conn, i);
    assert tr[i + 1] == Next(tr[i], es[i]);
  }

  /** The step marks `c` with that reason. */
  ghost predicate MarksWith(s: State, e: Event, c: Conn, reason: string) {
    Marks(s, e, c) && e.reason == reason
  }

  /** The step marks `c` or takes its mark away. */
  ghost predicate Remarks(s: State, e: Event, c: Conn) {
    Marks(s, e, c) || (e.Leave? && e.h in s.hs && s.hs[e.h].conn == c)
  }

  /** Step `i` marked `c` with that reason, and no step since has marked it again or taken the mark away. */
  ghost predicate ReasonSince(tr: seq<State>, es: seq<Event>, c: Conn, reason: string, i: nat, j: nat)
    requires IsRun(tr, es) && i < j <= |es|
  {
    MarksWith(tr[i], es[i], c, reason) && forall k | i < k < j :: !Remarks(tr[k], es[k], c)
  }

  ghost predicate LastReason(tr: seq<State>, es: seq<Event>, c: Conn, reason: string, j: nat)
    requires IsRun(tr, es) && j <= |es|
  {
    exists i | 0 <= i < j :: ReasonSince(tr, es, c, reason, i, j)
  }

  lemma ReasonSinceStep(tr: seq<State>, es: seq<Event>, c: Conn, reason: string, i: nat, j: nat)
    requires IsRun(tr, es) && i < j < |es|
    ensures ReasonSince(tr, es, c, reason, i, j + 1)
            <==> ReasonSince(tr, es, c, reason, i, j) && !Remarks(tr[j], es[j], c)
  {
  }

  lemma LastReasonStep(tr: seq<State>, es: seq<Event>, c: Conn, reason: string, j: nat)
    requires IsRun(tr, es) && j < |es|
    ensures LastReason(tr, es, c, reason, j + 1)
            <==> MarksWith(tr[j], es[j], c, reason) || (LastReason(tr, es, c, reason, j) && !Remarks(tr[j], es[j], c))
  {
    assert MarksWith(tr[j], es[j], c, reason) <==> ReasonSince(tr, es, c, reason, j, j + 1);
    if LastReason(tr, es, c, reason, j + 1) && !MarksWith(tr[j], es[j], c, reason) {
      var i :| 0 <= i < j + 1 && ReasonSince(tr, es, c, reason, i, j + 1);
      ReasonSinceStep(tr, es, c, reason, i, j);
    }
    if LastReason(tr, es, c, reason, j) && !Remarks(tr[j], es[j], c) {
      var i :| 0 <= i < j && ReasonSince(tr, es, c, reason, i, j);
      ReasonSinceStep(tr, es, c, reason, i, j);
    }
  }

  ghost predicate HasReason(s: State, c: Conn, reason: string) {
    c in s.ix.revoked && s.ix.revoked[c] == reason
  }

  lemma HasReasonStep(s: State, e: Event, c: Conn, reason: string)
    requires Enabled(s, e)
    ensures HasReason(Next(s, e), c, reason) <==> MarksWith(s, e, c, reason) || (HasReason(s, c, reason) && !Remarks(s, e, c))
  {
  }

  /** The reason a refused CONNECT is given is that of the last kick that marked the connection. */
  lemma {:induction false} ReasonIff(tr: seq<State>, es: seq<Event>, c: Conn, reason: string, j: nat)
    requires IsRun(tr, es) && j <= |es|
    ensures HasReason(tr[j], c, reason) <==> LastReason(tr, es, c, reason, j)
  {
    if j > 0 {
      var m := j - 1;
      ReasonIff(tr, es, c, reason, m);
      assert tr[j] == Next(tr[m], es[m]);
      HasReasonStep(tr[m], es[m], c, reason);
      LastReasonStep(tr, es, c, reason, m);
    }
  }

  // ---------------------------------------------------------------- live entries

  /** The step enters or leaves connection `c`. */
  ghost predicate Moves(s: State, e: Event, c: Conn) {
    (e.Enter? || e.Leave?) && e.h in s.hs && s.hs[e.h].conn == c
  }

  /** The step registers `u` on `c` from `addr`. */
  ghost predicate Enters(s: State, e: Event, c: Conn, u: User, addr: string) {
    e.Enter? && e.addr == addr && e.h in s.hs && s.hs[e.h] == Handler(c, Passed(u))
  }

  /** `u` was registered on `c` from `addr` at `i`, and nobody has entered or left `c` since. */
  ghost predicate EnteredSince(tr: seq<State>, es: seq<Event>, c: Conn, u: User, addr: string, i: nat, j: nat)
    requires IsRun(tr, es) && i < j <= |es|
  {
    Enters(tr[i], es[i], c, u, addr) && forall k | i < k < j :: !Moves(tr[k], es[k], c)
  }

  ghost predicate Known(tr: seq<State>, es: seq<Event>, c: Conn, u: User, addr: string, j: nat)
    requires IsRun(tr, es) && j <= |es|
  {
    exists i | 0 <= i < j :: EnteredSince(tr, es, c, u, addr, i, j)
  }

  lemma EnteredStep(tr: seq<State>, es: seq<Event>, c: Conn, u: User, addr: string, i: nat, j: nat)
    requires IsRun(tr, es) && i < j < |es|
    ensures EnteredSince(tr, es, c, u, addr, i, j + 1) <==> EnteredSince(tr, es, c, u, addr, i, j) && !Moves(tr[j], es[j], c)
  {
  }

  lemma KnownStep(tr: seq<State>, es: seq<Event>, c: Conn, u: User, addr: string, j: nat)
    requires IsRun(tr, es) && j < |es|
    ensures Known(tr, es, c, u, addr, j + 1)
            <==> Enters(tr[j], es[j], c, u, addr) || (Known(tr, es, c, u, addr, j) && !Moves(tr[j], es[j], c))
  {
    assert Enters(tr[j], es[j], c, u, addr) <==> EnteredSince(tr, es, c, u, addr, j, j + 1);
    if Known(tr, es, c, u, addr, j + 1) && !Enters(tr[j], es[j], c, u, addr) {
      var i :| 0 <= i < j + 1 && EnteredSince(tr, es, c, u, addr, i, j + 1);
      EnteredStep(tr, es, c, u, addr, i, j);
    }
    if Known(tr, es, c, u, addr, j) && !Moves(tr[j], es[j], c) {
      var i :| 0 <= i < j && EnteredSince(tr, es, c, u, addr, i, j);
      EnteredStep(tr, es, c, u, addr, i, j);
    }
  }

  ghost predicate HasEntry(s: State, c: Conn, u: User, addr: string) {
    c in s.ix.entries && s.ix.entries[c].username == u && s.ix.entries[c].remoteAddr == addr
  }

  lemma EntryStep(s: State, e: Event, c: Conn, u: User, addr: string)
    requires Enabled(s, e)
    ensures HasEntry(Next(s, e), c, u, addr) <==> Enters(s, e, c, u, addr) || (HasEntry(s, c, u, addr) && !Moves(s, e, c))
  {
  }

  /** A connection has a live entry, for that user and from that address, if and only if the last handler to enter
      or leave it was one of that user entering from there. */
  lemma {:induction false} EntryIff(tr: seq<State>, es: seq<Event>, c: Conn, u: User, addr: string, j: nat)
    requires IsRun(tr, es) && j <= |es|
    ensures HasEntry(tr[j], c, u, addr) <==> Known(tr, es, c, u, addr, j)
  {
    if j > 0 {
      var m := j - 1;
      EntryIff(tr, es, c, u, addr, m);
      assert tr[j] == Next(tr[m], es[m]);
      EntryStep(tr[m], es[m], c, u, addr);
      KnownStep(tr, es, c, u, addr, m);
    }
  }

  /** The device count is skipped if and only if there is no limit or the connection has a live entry. */
  lemma KnownDecides(tr: seq<State>, es: seq<Event>, i: nat)
    requires IsRun(tr, es) && i < |es| && es[i].CheckKnown?
    ensures var h := es[i].h;
            var c, st := tr[i].hs[h].conn, tr[i].hs[h].stage;
            tr[i + 1].hs[h].stage ==
              if st.limit <= 0 || (exists u: User, addr: string :: Known(tr, es, c, u, addr, i)) then Passed(st.user)
              else Unknown(st.user, st.limit)
  {
    var c := tr[i].hs[es[i].h].conn;
    assert tr[i + 1] == Next(tr[i], es[i]);
    if c in tr[i].ix.entries {
      var e := tr[i].ix.entries[c];
      EntryIff(tr, es, c, e.username, e.remoteAddr, i);
    }
    if u: User, addr: string :| Known(tr, es, c, u, addr, i) {
      EntryIff(tr, es, c, u, addr, i);
    }
  }

  // ---------------------------------------------------------------- the device count

  /** The streams of `u` being served, on whatever connection. */
  ghost function ServedFor(s: State, u: User): set<Hid> {
    set h | h in s.hs && s.hs[h].stage == Serving(u)
  }

  lemma {:induction false} RemoveFirstShorter(s: seq<Conn>, c: Conn)
    requires c in s
    ensures |RemoveFirst(s, c)| == |s| - 1
  {
    if s[0] != c {
      assert c in s[1..];
      RemoveFirstShorter(s[1..], c);
    }
  }

  lemma ServedKept(s: State, e: Event, u: User)
    requires Enabled(s, e) && !e.Enter? && !e.Leave?
    ensures ServedFor(Next(s, e), u) == ServedFor(s, u) && CountOf(Next(s, e).ix, u) == CountOf(s.ix, u)
  {
  }

  lemma ServedEnters(s: State, e: Event, u: User)
    requires Enabled(s, e) && e.Enter? && CountOf(s.ix, u) == |ServedFor(s, u)|
    ensures CountOf(Next(s, e).ix, u) == |ServedFor(Next(s, e), u)|
  {
    var t := Next(s, e);
    EnterLists(s.ix, s.hs[e.h].stage.user, s.hs[e.h].conn, e.addr, e.now, u);
    if s.hs[e.h].stage.user == u {
      assert ServedFor(t, u) == ServedFor(s, u) + {e.h};
    } else {
      assert ServedFor(t, u) == ServedFor(s, u);
    }
  }

  lemma ServedLeaves(s: State, e: Event, u: User)
    requires Agreement(s) && Enabled(s, e) && e.Leave? && CountOf(s.ix, u) == |ServedFor(s, u)|
    ensures CountOf(Next(s, e).ix, u) == |ServedFor(Next(s, e), u)|
  {
    var t, v, c := Next(s, e), s.hs[e.h].stage.user, s.hs[e.h].conn;
    if v == u {
      ListedIffServing(s, u, c);
      RemoveFirstShorter(s.ix.Conns(u), c);
      assert ServedFor(t, u) == ServedFor(s, u) - {e.h};
    } else {
      assert ServedFor(t, u) == ServedFor(s, u);
    }
  }

  /** What the limit is compared with is the number of streams of the user being served. */
  lemma {:induction false} CountIsStreams(tr: seq<State>, es: seq<Event>, u: User, i: nat)
    requires IsRun(tr, es) && i <= |es|
    ensures CountOf(tr[i].ix, u) == |ServedFor(tr[i], u)|
  {
    if i > 0 {
      var m := i - 1;
      CountIsStreams(tr, es, u, m);
      assert tr[i] == Next(tr[m], es[m]);
      if es[m].Enter? {
        ServedEnters(tr[m], es[m], u);
      } else if es[m].Leave? {
        IndexAgreement(tr, es, m);
        ServedLeaves(tr[m], es[m], u);
      } else {
        ServedKept(tr[m], es[m], u);
      }
    } else {
      assert ServedFor(tr[0], u) == {};
    }
  }

  /** The count refuses if and only if as many streams of the user as the limit are being served. */
  lemma CountDecides(tr: seq<State>, es: seq<Event>, i: nat)
    requires IsRun(tr, es) && i < |es| && es[i].CheckCount?
    ensures var h := es[i].h;
            var st := tr[i].hs[h].stage;
            tr[i + 1].hs[h].stage == if |ServedFor(tr[i], st.user)| >= st.limit then Refused else Passed(st.user)
  {
    CountIsStreams(tr, es, tr[i].hs[es[i].h].stage.user, i);
    assert tr[i + 1] == Next(tr[i], es[i]);
  }

  // ---------------------------------------------------------------- session kicks

  /** A session kick reaches the connection that the user entered from that address, unless another connection
      listed for the user has the same address; then one of those with the address is reached. */
  lemma SessionKickReaches(tr: seq<State>, es: seq<Event>, c: Conn, i: nat)
    requires IsRun(tr, es) && i < |es| && es[i].KickSession? && Known(tr, es, c, es[i].u, es[i].addr, i)
    ensures exists d :: d in tr[i].ix.Conns(es[i].u) && HasAddr(tr[i].ix, d, es[i].addr)
                        && d in tr[i + 1].ix.revoked && tr[i + 1].ix.revoked[d] == es[i].reason
    ensures (forall d | d in tr[i].ix.Conns(es[i].u) && HasAddr(tr[i].ix, d, es[i].addr) :: d == c) ==>
              tr[i + 1].ix.revoked == tr[i].ix.revoked[c := es[i].reason]
  {
    var u, addr := es[i].u, es[i].addr;
    EntryIff(tr, es, c, u, addr, i);
    IndexAgreement(tr, es, i);
    assert c in tr[i].ix.Conns(u) && HasAddr(tr[i].ix, c, addr);
    assert tr[i + 1] == Next(tr[i], es[i]);
    var d := FirstWithAddr(tr[i].ix, tr[i].ix.Conns(u), addr).value;
    assert d in tr[i + 1].ix.revoked;
  }

  // ---------------------------------------------------------------- who is served

  predicate About(e: Event, h: Hid) {
    !e.KickUser? && !e.KickSession? && e.h == h
  }

  /** What has happened to handler `h` so far, told by its stage. */
  ghost predicate Tells(past: seq<Event>, h: Hid, x: Handler) {
    && Arrive(h, x.conn) in past
    && (Leave(h) in past <==> x.stage == Done)
    && (Reject(h) in past ==> x.stage == Refused)
    && match x.stage
       case Admitted(u, limit) => Authenticate(h, u, limit) in past
       case Unknown(u, limit) => Authenticate(h, u, limit) in past
       case Passed(u) => exists limit :: Authenticate(h, u, limit) in past
       case Serving(u) => exists limit :: Authenticate(h, u, limit) in past
       case _ => true
  }

  ghost predicate History(past: seq<Event>, s: State, h: Hid) {
    if h in s.hs then Tells(past, h, s.hs[h]) else forall e | e in past :: !About(e, h)
  }

  lemma HistoryStep(past: seq<Event>, s: State, e: Event, h: Hid)
    requires Enabled(s, e) && History(past, s, h)
    ensures History(past + [e], Next(s, e), h)
  {
    if About(e, h) {
      assert e in past + [e];
    }
  }

  /** In every run a handler stays on the connection it arrived on; only one whose credentials were accepted, for
      that user and with that limit, is counted, passed or served; one that is rejected stays refused; and one is
      done if and only if it has left. */
  lemma {:induction false} StageTells(tr: seq<State>, es: seq<Event>, h: Hid, j: nat)
    requires IsRun(tr, es) && j <= |es|
    ensures History(es[..j], tr[j], h)
  {
    if j > 0 {
      var m := j - 1;
      StageTells(tr, es, h, m);
      assert tr[j] == Next(tr[m], es[m]) && es[..j] == es[..m] + [es[m]];
      HistoryStep(es[..m], tr[m], es[m], h);
    }
  }
}
