/** The step model of the cache against the cache object: one undisturbed lookup, invalidation or eviction. */
module LookupRuns {
  import opened Sums
  import opened Tracker
  import opened Credentials
  import opened AuthCache
  import opened AuthRuns

  /** The cache without the record of when its entries were read. */
  function Plain(cache: map<User, Cached>): map<User, CacheEntry> {
    map u | u in cache :: cache[u].e
  }

  /** Which of the three queries fail. */
  datatype Faults = Faults(password: bool, devices: bool, life: bool)

  function RepliesOf(st: Store, caps: Caps, u: User, f: Faults): Replies {
    Replies(if f.password then None else Some(PasswordOf(st, u)),
            if caps.devices && !f.devices then Some(DevicesOf(st, u)) else None,
            if caps.lifecycle && !f.life then Some(LifeOf(st, u)) else None)
  }

  /** The lookup has got as far as the entry it will store. */
  ghost predicate Ready(s: State, s': State, t: Tid, acct: Option<Account>) {
    && s'.hist == s.hist && s'.cache == s.cache && t in s.tasks && t in s'.tasks && s'.tasks[t].user == s.tasks[t].user
    && s'.tasks[t].pc.HaveAll? && s'.tasks[t].pc.acct == acct
  }

  /** The queries of a lookup that reaches the store. */
  lemma QuerySteps(s: State, t: Tid, caps: Caps, ttl: int, f: Faults) returns (tr: seq<State>, es: seq<Event>)
    requires Busy(s, t) && s.tasks[t].pc.Asking? && !f.password
    ensures Steps(tr, es, caps, ttl) && tr[0] == s
    ensures var r, pw := RepliesOf(s.Now().store, caps, s.tasks[t].user, f), PasswordOf(s.Now().store, s.tasks[t].user);
            Ready(s, tr[|es|], t, if pw == "" then None else Some(Assembled(pw, r.devices, r.life)))
  {
    tr, es := Extended([s], [], AskPassword(t, false), caps, ttl);
    if PasswordOf(s.Now().store, s.tasks[t].user) != "" {
      tr, es := Extended(tr, es, AskDevices(t, f.devices), caps, ttl);
      tr, es := Extended(tr, es, AskLife(t, f.life), caps, ttl);
    }
  }

  /** Storing the entry, `wait` after the lookup began. */
  lemma StoreSteps(tr: seq<State>, es: seq<Event>, t: Tid, caps: Caps, ttl: int, wait: nat)
    returns (tr': seq<State>, es': seq<Event>)
    requires Steps(tr, es, caps, ttl) && Busy(tr[|es|], t) && tr[|es|].tasks[t].pc.HaveAll?
    ensures Steps(tr', es', caps, ttl) && tr'[0] == tr[0]
    ensures var s, s' := tr[|es|], tr'[|es'|];
            var acct, u := s.tasks[t].pc.acct, s.tasks[t].user;
            && t in s'.tasks && s'.tasks[t].user == u && s'.tasks[t].pc.Answered? && s'.tasks[t].pc.acct == acct
            && Plain(s'.cache) == Plain(s.cache)[u := CacheEntry(acct, s.Now().now + wait + ttl)]
  {
    tr', es' := Extended(tr, es, Tick(wait), caps, ttl);
    tr', es' := Extended(tr', es', Stamp(t), caps, ttl);
    tr', es' := Extended(tr', es', Write(t), caps, ttl);
  }

  lemma JoinedStep(tr: seq<State>, es: seq<Event>, tr2: seq<State>, es2: seq<Event>, caps: Caps, ttl: int, i: nat)
    requires Steps(tr, es, caps, ttl) && Steps(tr2, es2, caps, ttl) && tr2[0] == tr[|es|] && i < |es + es2|
    ensures var tr', es' := tr + tr2[1..], es + es2; Enabled(tr'[i], es'[i]) && tr'[i + 1] == Next(tr'[i], es'[i], caps, ttl)
  {
    var tr', es' := tr + tr2[1..], es + es2;
    if i < |es| {
      assert tr'[i] == tr[i] && tr'[i + 1] == tr[i + 1] && es'[i] == es[i];
    } else {
      var j := i - |es|;
      assert tr'[i] == tr2[j] && tr'[i + 1] == tr2[j + 1] && es'[i] == es2[j];
    }
  }

  lemma Joined(tr: seq<State>, es: seq<Event>, tr2: seq<State>, es2: seq<Event>, caps: Caps, ttl: int)
    returns (tr': seq<State>, es': seq<Event>)
    requires Steps(tr, es, caps, ttl) && Steps(tr2, es2, caps, ttl) && tr2[0] == tr[|es|]
    ensures Steps(tr', es', caps, ttl) && tr'[0] == tr[0] && tr'[|es'|] == tr2[|es2|]
  {
    tr', es' := tr + tr2[1..], es + es2;
    forall i | 0 <= i < |es'| ensures Enabled(tr'[i], es'[i]) && tr'[i + 1] == Next(tr'[i], es'[i], caps, ttl) {
      JoinedStep(tr, es, tr2, es2, caps, ttl, i);
    }
  }

  /** The start of a lookup: what the cache says, and whether it is fresh. */
  lemma PeekSteps(s: State, u: User, caps: Caps, ttl: int) returns (tr: seq<State>, es: seq<Event>, t: Tid)
    requires s.hist != [] && ':' !in u
    ensures Steps(tr, es, caps, ttl) && tr[0] == s
    ensures var s' := tr[|es|];
            && s'.hist == s.hist && s'.cache == s.cache && t in s'.tasks && s'.tasks[t].user == u
            && s'.tasks[t].pc ==
                 if u in s.cache && s.Now().now < s.cache[u].e.exp
                 then Answered(s.cache[u].e.acct, FromCache(s.cache[u].prov), s.Here())
                 else Asking(if u in s.cache then Some(s.cache[u]) else None, s.Here())
  {
    t := Above(s.tasks.Keys);
    SplitJoin(u, "");
    tr, es := Extended([s], [], Begin(t, u + ":" + ""), caps, ttl);
    tr, es := Extended(tr, es, CheckFresh(t), caps, ttl);
  }

  /** From the first query on, when it does not fail. */
  lemma QueriedSteps(tr: seq<State>, es: seq<Event>, t: Tid, caps: Caps, ttl: int, f: Faults, wait: nat)
    returns (tr': seq<State>, es': seq<Event>)
    requires Steps(tr, es, caps, ttl) && Busy(tr[|es|], t) && tr[|es|].tasks[t].pc.Asking? && !f.password
    ensures Steps(tr', es', caps, ttl) && tr'[0] == tr[0]
    ensures var s, s' := tr[|es|], tr'[|es'|];
            var u := s.tasks[t].user;
            var r, pw := RepliesOf(s.Now().store, caps, u, f), PasswordOf(s.Now().store, u);
            var acct := if pw == "" then None else Some(Assembled(pw, r.devices, r.life));
            && t in s'.tasks && s'.tasks[t].user == u && s'.tasks[t].pc.Answered? && s'.tasks[t].pc.acct == acct
            && Plain(s'.cache) == Plain(s.cache)[u := CacheEntry(acct, s.Now().now + wait + ttl)]
  {
    var tr2, es2 := QuerySteps(tr[|es|], t, caps, ttl, f);
    tr', es' := Joined(tr, es, tr2, es2, caps, ttl);
    tr', es' := StoreSteps(tr', es', t, caps, ttl, wait);
  }

  /** Main result: an undisturbed run of a lookup's steps answers and leaves the cache as `LookupEntry` does,
      whichever queries fail and however long they take. */
  lemma LookupSteps(s: State, u: User, caps: Caps, ttl: int, f: Faults, wait: nat)
    returns (tr: seq<State>, es: seq<Event>, t: Tid)
    requires s.hist != [] && ':' !in u
    ensures Steps(tr, es, caps, ttl) && tr[0] == s
    ensures var s', now := tr[|es|], s.Now().now;
            && t in s'.tasks && s'.tasks[t].user == u && s'.tasks[t].pc.Answered?
            && (s'.tasks[t].pc.acct, Plain(s'.cache))
               == LookedUp(Plain(s.cache), ttl, u, now, RepliesOf(s.Now().store, caps, u, f), now + wait)
  {
    tr, es, t := PeekSteps(s, u, caps, ttl);
    if tr[|es|].tasks[t].pc.Asking? {
      if f.password {
        tr, es := Extended(tr, es, AskPassword(t, true), caps, ttl);
      } else {
        tr, es := QueriedSteps(tr, es, t, caps, ttl, f, wait);
      }
    }
  }

  /** Invalidation and eviction do to the run's cache what the methods do. */
  lemma CacheSteps(s: State, u: User, now: int, caps: Caps, ttl: int)
    requires s.hist != []
    ensures Plain(Next(s, Invalidate(u), caps, ttl).cache) == Plain(s.cache) - {u}
    ensures Plain(Next(s, InvalidateAll, caps, ttl).cache) == map[]
    ensures now <= s.Now().now ==> Plain(Next(s, Evict(now), caps, ttl).cache) == Evicted(Plain(s.cache), now)
  {
  }
}
