/** When two streams meet: what entering a room does, told by who is waiting there. */
module Meetings {
  import opened Tracker
  import opened Credentials
  import opened Rendezvous

  /** `q` is in its wait for a partner of `user` in `room`, and nobody has taken it. */
  ghost predicate Waits(s: State, q: Pid, user: string, room: string) {
    && q in s.streams && Present(s.streams[q].stage) && q !in s.takers
    && s.streams[q].user == user && s.streams[q].room == room
  }

  lemma WaitsUnderKey(s: State, q: Pid, user: string, room: string)
    requires Safe(s) && KeysOk(s) && Waits(s, q, user, room)
    ensures user + ":" + room in s.waiting && s.waiting[user + ":" + room] == q
  {
    assert s.streams[q].key == Key(user, room);
  }

  /** At most one stream waits in a room. */
  lemma OneWaits(tr: seq<State>, es: seq<Event>, i: nat, q: Pid, r: Pid, user: string, room: string)
    requires IsRun(tr, es) && i < |tr| && Waits(tr[i], q, user, room) && Waits(tr[i], r, user, room)
    ensures q == r
  {
    BrokerSafety(tr, es, i);
    KeysStay(tr, es, i);
    WaitsUnderKey(tr[i], q, user, room);
    WaitsUnderKey(tr[i], r, user, room);
  }

  /** The waiting entry under a key is a stream of that user in that room. */
  lemma KeyWaits(s: State, user: string, room: string)
    requires Safe(s) && KeysOk(s) && ':' !in user && user + ":" + room in s.waiting
    ensures Waits(s, s.waiting[user + ":" + room], user, room)
  {
    var q := s.waiting[user + ":" + room];
    JoinInjective(user, room, s.streams[q].user, s.streams[q].room);
  }

  /** Everybody but `p` is as before. */
  ghost predicate OthersSame(s: State, t: State, p: Pid) {
    t.closed == s.closed && t.streams.Keys == s.streams.Keys && forall r | r in s.streams && r != p :: t.streams[r] == s.streams[r]
  }

  /** `p` and `q` are a pair that was not there before, and `q` waits no more. */
  ghost predicate Meet(s: State, t: State, p: Pid, q: Pid) {
    && p in t.streams && t.streams[p].stage == Relaying(q)
    && t.pairs == s.pairs[p := q] && t.takers == s.takers[q := p]
    && (forall k :: k in t.waiting <==> k in s.waiting && s.waiting[k] != q)
    && (forall k | k in t.waiting :: t.waiting[k] == s.waiting[k])
  }

  /** `p` is parked and can be found under its key, and no pair has changed. */
  ghost predicate Park(s: State, t: State, p: Pid, user: string, room: string) {
    && p in t.streams && t.streams[p].stage == Parked
    && t.waiting == s.waiting[user + ":" + room := p] && t.pairs == s.pairs && t.takers == s.takers
  }

  lemma MeetStep(s: State, p: Pid, q: Pid)
    requires Safe(s) && KeysOk(s) && Enabled(s, Enter(p)) && s.streams[p].room != ""
    requires Waits(s, q, s.streams[p].user, s.streams[p].room)
    ensures Meet(s, Next(s, Enter(p)), p, q) && OthersSame(s, Next(s, Enter(p)), p)
  {
    var key := s.streams[p].key;
    WaitsUnderKey(s, q, s.streams[p].user, s.streams[p].room);
    assert key == Key(s.streams[p].user, s.streams[p].room);
    forall k | k in s.waiting && s.waiting[k] == q ensures k == key {
      assert s.streams[q].key == k;
    }
  }

  lemma ParkStep(s: State, p: Pid)
    requires Safe(s) && KeysOk(s) && Enabled(s, Enter(p)) && s.streams[p].room != ""
    requires forall q :: !Waits(s, q, s.streams[p].user, s.streams[p].room)
    ensures Park(s, Next(s, Enter(p)), p, s.streams[p].user, s.streams[p].room) && OthersSame(s, Next(s, Enter(p)), p)
  {
    var x := s.streams[p];
    assert x.key == Key(x.user, x.room);
    if x.key in s.waiting {
      KeyWaits(s, x.user, x.room);
      assert false;
    }
  }

  /** Main result: entering a room pairs the stream with the one of the same user that waits there; if none waits
      the stream becomes the waiting one; without a room it is gone and nothing else changes. */
  lemma EnterDecides(tr: seq<State>, es: seq<Event>, i: nat)
    requires IsRun(tr, es) && i < |es| && es[i].Enter?
    ensures var s, t, p := tr[i], tr[i + 1], es[i].p;
            var x := s.streams[p];
            && OthersSame(s, t, p)
            && (forall q | x.room != "" && Waits(s, q, x.user, x.room) :: Meet(s, t, p, q))
            && (x.room != "" && (forall q :: !Waits(s, q, x.user, x.room)) ==> Park(s, t, p, x.user, x.room))
            && (x.room == "" ==> t == s.(streams := s.streams[p := x.(stage := Gone)]))
  {
    BrokerSafety(tr, es, i);
    KeysStay(tr, es, i);
    var s, p := tr[i], es[i].p;
    var x := s.streams[p];
    assert tr[i + 1] == Next(s, es[i]) && es[i] == Enter(p);
    if x.room != "" {
      if q :| Waits(s, q, x.user, x.room) {
        forall r | Waits(s, r, x.user, x.room) ensures Meet(s, tr[i + 1], p, r) {
          MeetStep(s, p, r);
        }
        MeetStep(s, p, q);
      } else {
        ParkStep(s, p);
      }
    }
  }

  // ---------------------------------------------------------------- who the streams are

  lemma StreamKept(s: State, e: Event, p: Pid)
    requires Enabled(s, e) && p in s.streams
    ensures p in Next(s, e).streams
    ensures Next(s, e).streams[p].user == s.streams[p].user && Next(s, e).streams[p].room == s.streams[p].room
  {
  }

  /** A stream keeps the user name it authenticated with and the room it asked for. */
  lemma {:induction false} ArrivedAs(tr: seq<State>, es: seq<Event>, i: nat, j: nat, p: Pid, user: string, password: string)
    requires IsRun(tr, es) && i < j < |tr| && es[i].Arrive? && es[i].p == p
    requires ':' !in user && es[i].decoded == user + ":" + password
    ensures p in tr[j].streams && tr[j].streams[p].user == user && tr[j].streams[p].room == es[i].room
    decreases j
  {
    var m := j - 1;
    assert Enabled(tr[m], es[m]) && tr[j] == Next(tr[m], es[m]);
    if m == i {
      SplitJoin(user, password);
    } else {
      ArrivedAs(tr, es, i, m, p, user, password);
      StreamKept(tr[m], es[m], p);
    }
  }

  /** So paired streams authenticated with the same user name and asked for the same room. */
  lemma PairedCredentials(tr: seq<State>, es: seq<Event>, i: nat, a: nat, b: nat, u: string, pu: string, v: string, pv: string)
    requires IsRun(tr, es) && a < i < |tr| && b < i && es[a].Arrive? && es[b].Arrive?
    requires ':' !in u && es[a].decoded == u + ":" + pu && ':' !in v && es[b].decoded == v + ":" + pv
    requires es[a].p in tr[i].pairs && tr[i].pairs[es[a].p] == es[b].p
    ensures u == v && es[a].room == es[b].room
  {
    ArrivedAs(tr, es, a, i, es[a].p, u, pu);
    ArrivedAs(tr, es, b, i, es[b].p, v, pv);
    PairedSameUserAndRoom(tr, es, i, es[a].p);
  }

  // ---------------------------------------------------------------- leaving

  /** When the relay is over its waiter is told, and both handlers return. */
  lemma MeetingEnds(tr: seq<State>, es: seq<Event>, i: nat, p: Pid, q: Pid)
    requires IsRun(tr, es) && i < |tr| && p in tr[i].streams && tr[i].streams[p].stage == Relaying(q)
    requires q in tr[i].streams && tr[i].streams[q].stage == Parked
    ensures var s := tr[i];
            && Enabled(s, HangUp(p)) && Enabled(Next(s, HangUp(p)), SeeDone(q))
            && var t := Next(Next(s, HangUp(p)), SeeDone(q));
               t.streams[p].stage == Gone && t.streams[q].stage == Gone && Closes(t, q) == 1 && t.waiting == s.waiting
  {
    BrokerSafety(tr, es, i);
    assert PairOk(tr[i], p);
  }

  /** A waiter sees its channel closed only after the stream that took it has hung up. */
  lemma DoneMeansOver(tr: seq<State>, es: seq<Event>, i: nat, q: Pid)
    requires IsRun(tr, es) && i < |es| && es[i] == SeeDone(q)
    ensures q in tr[i].takers && tr[i].takers[q] in tr[i].streams && tr[i].streams[tr[i].takers[q]].stage == Gone
    ensures tr[i + 1] == tr[i].(streams := tr[i].streams[q := tr[i].streams[q].(stage := Gone)])
  {
    BrokerSafety(tr, es, i);
    assert Enabled(tr[i], es[i]) && tr[i + 1] == Next(tr[i], es[i]);
    assert PairOk(tr[i], tr[i].takers[q]);
  }
}
