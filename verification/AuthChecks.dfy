/** Whole checks of credentials: the verdict for what the client sent, against the store. */
module AuthChecks {
  import opened Tracker
  import opened Credentials
  import opened AuthCache
  import opened AuthRuns

  lemma TaskKept(s: State, ev: Event, caps: Caps, ttl: int, t: Tid)
    requires Enabled(s, ev) && t in s.tasks
    ensures t in Next(s, ev, caps, ttl).tasks
    ensures Next(s, ev, caps, ttl).tasks[t].user == s.tasks[t].user
    ensures Next(s, ev, caps, ttl).tasks[t].password == s.tasks[t].password
  {
  }

  /** A check is about the user name before the first colon and the password after it, throughout. */
  lemma {:induction false} BegunWith(tr: seq<State>, es: seq<Event>, caps: Caps, ttl: int, b: nat, k: nat, user: User, password: string)
    requires Steps(tr, es, caps, ttl) && b < k < |tr| && es[b].Begin?
    requires ':' !in user && es[b].decoded == user + ":" + password
    ensures es[b].t in tr[k].tasks && tr[k].tasks[es[b].t].user == user && tr[k].tasks[es[b].t].password == password
    ensures es[b].t !in tr[b].tasks
    decreases k
  {
    var m := k - 1;
    assert Enabled(tr[m], es[m]) && tr[k] == Next(tr[m], es[m], caps, ttl);
    assert Enabled(tr[b], es[b]);
    if m == b {
      SplitJoin(user, password);
    } else {
      BegunWith(tr, es, caps, ttl, b, m, user, password);
      TaskKept(tr[m], es[m], caps, ttl, es[b].t);
    }
  }

  lemma {:induction false} TasksGrow(tr: seq<State>, es: seq<Event>, caps: Caps, ttl: int, i: nat, j: nat, t: Tid)
    requires Steps(tr, es, caps, ttl) && i <= j < |tr| && t in tr[i].tasks
    ensures t in tr[j].tasks
    decreases j
  {
    if i < j {
      var m := j - 1;
      TasksGrow(tr, es, caps, ttl, i, m, t);
      assert Enabled(tr[m], es[m]) && tr[j] == Next(tr[m], es[m], caps, ttl);
      TaskKept(tr[m], es[m], caps, ttl, t);
    }
  }

  /** The row of `u` is the same at every moment from position `i` of the run to position `k`. */
  ghost predicate RowStands(tr: seq<State>, u: User, i: nat, k: nat)
    requires i <= k < |tr| && tr[i].hist != []
  {
    forall m | |tr[i].hist| - 1 <= m < |tr[k].hist| :: SameRow(tr[k].hist[m].store, tr[k].hist[|tr[k].hist| - 1].store, u)
  }

  /** Main result: a check of `user` and `password` begun after a fresh start, with the user's row unchanged and its
      queries answered, ends with the verdict that the store gives for them at that instant. */
  lemma CheckIsUncached(tr: seq<State>, es: seq<Event>, w: Snap, caps: Caps, ttl: int, i: nat, b: nat, k: nat,
                        user: User, password: string)
    requires IsRun(tr, es, w, caps, ttl) && i <= b < k < |es| && es[b].Begin? && es[k] == Conclude(es[b].t)
    requires ':' !in user && es[b].decoded == user + ":" + password && tr[i].hist != []
    requires StartsAfresh(tr, es, i, user, true, ttl) && StoreAnswers(tr, es, i, user) && RowStands(tr, user, i, k)
    ensures tr[k].hist != []
    ensures var now := tr[k].hist[|tr[k].hist| - 1];
            tr[k + 1].tasks[es[b].t].pc == Decided(Uncached(now.store, caps, user, password, now.now), |tr[k].hist| - 1)
  {
    var t := es[b].t;
    BegunWith(tr, es, caps, ttl, b, k, user, password);
    if t in tr[i].tasks {
      TasksGrow(tr, es, caps, ttl, i, b, t);
      assert false;
    }
    assert Enabled(tr[k], es[k]);
    CacheTransparent(tr, es, w, caps, ttl, i, k, t);
  }

  /** Only a user name and password that the store held together, for that user, are accepted. */
  lemma AcceptedWasHeld(tr: seq<State>, es: seq<Event>, w: Snap, caps: Caps, ttl: int, b: nat, k: nat, user: User, password: string)
    requires IsRun(tr, es, w, caps, ttl) && b < k < |es| && es[b].Begin? && es[k] == Conclude(es[b].t)
    requires ':' !in user && es[b].decoded == user + ":" + password
    requires tr[k + 1].tasks[es[b].t].pc.Decided? && tr[k + 1].tasks[es[b].t].pc.result.deny != DenyBadCreds
    ensures password != "" && exists m | 0 <= m < |tr[k].hist| :: PasswordOf(tr[k].hist[m].store, user) == password
  {
    BegunWith(tr, es, caps, ttl, b, k, user, password);
    NeverInvented(tr, es, w, caps, ttl, k, es[b].t);
  }

  /** A user whose row is gone when the lifecycle is read is not let in, although the password was read before. */
  lemma GoneIsDenied(tr: seq<State>, es: seq<Event>, w: Snap, caps: Caps, ttl: int, k: nat, t: Tid)
    requires IsRun(tr, es, w, caps, ttl) && k < |es| && es[k] == Conclude(t) && caps.lifecycle
    requires t in tr[k].tasks && tr[k].tasks[t].pc.Answered? && !tr[k].tasks[t].pc.src.Nowhere?
    requires var p := tr[k].tasks[t].pc.src.p;
             p.whole && p.lifeAt < |tr[k].hist| && tr[k].tasks[t].user !in tr[k].hist[p.lifeAt].store
    ensures t in tr[k + 1].tasks && tr[k + 1].tasks[t].pc.Decided?
    ensures tr[k + 1].tasks[t].pc.result.deny in {DenyBadCreds, DenyDisabled}
  {
    RunHonest(tr, es, w, caps, ttl, k);
    ConcludedAt(tr, es, caps, ttl, k, t);
    var x := tr[k].tasks[t];
    assert PcOk(tr[k].hist, caps, ttl, x.user, x.began, x.pc);
    assert ReadFrom(tr[k].hist, caps, x.user, x.pc.acct, x.pc.src.p);
  }

  /** And one whose row is gone when the device limit is read, if let in at all, is let in without a limit. */
  lemma GoneHasNoLimit(tr: seq<State>, es: seq<Event>, w: Snap, caps: Caps, ttl: int, k: nat, t: Tid)
    requires IsRun(tr, es, w, caps, ttl) && k < |es| && es[k] == Conclude(t)
    requires t in tr[k].tasks && tr[k].tasks[t].pc.Answered? && !tr[k].tasks[t].pc.src.Nowhere?
    requires var p := tr[k].tasks[t].pc.src.p;
             p.whole && p.devAt < |tr[k].hist| && tr[k].tasks[t].user !in tr[k].hist[p.devAt].store
    ensures t in tr[k + 1].tasks && tr[k + 1].tasks[t].pc.Decided? && tr[k + 1].tasks[t].pc.result.maxDevices == 0
  {
    RunHonest(tr, es, w, caps, ttl, k);
    ConcludedAt(tr, es, caps, ttl, k, t);
    var x := tr[k].tasks[t];
    assert PcOk(tr[k].hist, caps, ttl, x.user, x.began, x.pc);
    assert ReadFrom(tr[k].hist, caps, x.user, x.pc.acct, x.pc.src.p);
  }
}
