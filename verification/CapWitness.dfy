/** Runs that reach the device bound, showing that the check-then-register window is exactly what is lost. */
module CapWitness {
  import opened Tracker
  import opened Admission

  const Someone: User := "someone"

  ghost function Range(lo: nat, hi: nat): (r: set<nat>)
    ensures forall k: nat :: k in r <==> lo <= k < hi
    ensures lo <= hi ==> |r| == hi - lo
    decreases hi
  {
    if lo >= hi then {} else Range(lo, hi - 1) + {hi - 1}
  }

  ghost function Owner(n: nat): map<Conn, User> {
    map c | c in Range(0, n) :: Someone
  }

  /** Handlers 0..i serve, the next j have passed the check, and the last one, if any, stands at `st`;
      handler h uses connection h. */
  ghost predicate Looks(s: State, i: nat, j: nat, n: nat, st: Stage) {
    && i + j <= n <= i + j + 1
    && (forall h: Hid :: h in s.hs <==> h < n)
    && (forall h: Hid | h in s.hs :: s.hs[h].conn == h)
    && (forall h: Hid | h in s.hs :: s.hs[h].stage == if h < i then Serving(Someone) else if h < i + j then Passed(Someone) else st)
    && (forall c | c in s.ix.entries :: c < i)
    && CountOf(s.ix, Someone) == i
    && s.ix.revoked == map[]
  }

  predicate Waiting(st: Stage, limit: int) {
    st == Arrived || st == Cleared || st == Admitted(Someone, limit) || st == Unknown(Someone, limit)
  }

  lemma LooksSetting(s: State, i: nat, j: nat, n: nat, st: Stage, limit: int, window: nat)
    requires Looks(s, i, j, n, st) && i < limit && j <= window && Waiting(st, limit)
    requires n < limit + window || n == i + j
    ensures CapSetting(s, Someone, limit, window) && OneUser(s, Owner(limit + window))
  {
    assert Passing(s, Someone) == Range(i, i + j);
  }

  lemma LooksDevices(s: State, i: nat, j: nat, st: Stage)
    requires Looks(s, i, j, i + j, st)
    ensures |Devices(s, Someone)| == i + j
  {
    forall c | c in Range(0, i + j) ensures c in Devices(s, Someone) {
      assert c in s.hs && s.hs[c].conn == c;
    }
    assert Devices(s, Someone) == Range(0, i + j);
  }

  lemma Extend(tr: seq<State>, es: seq<Event>, e: Event, s: State)
    requires IsRun(tr, es) && Enabled(tr[|es|], e) && s == Next(tr[|es|], e)
    ensures IsRun(tr + [s], es + [e])
  {
    var tr', es' := tr + [s], es + [e];
    forall i | 0 <= i < |es'| ensures Enabled(tr'[i], es'[i]) && tr'[i + 1] == Next(tr'[i], es'[i]) {
      if i < |es| {
        assert tr'[i] == tr[i] && tr'[i + 1] == tr[i + 1] && es'[i] == es[i];
      }
    }
  }

  /** A run that stays inside the promised setting throughout. */
  ghost predicate GoodRun(tr: seq<State>, es: seq<Event>, limit: int, window: nat) {
    && IsRun(tr, es)
    && limit >= 1
    && (forall k | 0 <= k < |tr| :: CapSetting(tr[k], Someone, limit, window))
    && (forall k | 0 <= k < |tr| :: OneUser(tr[k], Owner(limit + window)))
  }

  lemma Grow(tr: seq<State>, es: seq<Event>, e: Event, i: nat, j: nat, n: nat, st: Stage, limit: int, window: nat)
    returns (tr': seq<State>, es': seq<Event>)
    requires GoodRun(tr, es, limit, window) && Enabled(tr[|es|], e)
    requires Looks(Next(tr[|es|], e), i, j, n, st) && i < limit && j <= window && Waiting(st, limit)
    requires n < limit + window || n == i + j
    ensures GoodRun(tr', es', limit, window) && |es'| == |es| + 1 && tr'[|es'|] == Next(tr[|es|], e)
  {
    var s := Next(tr[|es|], e);
    LooksSetting(s, i, j, n, st, limit, window);
    Extend(tr, es, e, s);
    tr', es' := tr + [s], es + [e];
  }

  function StageAt(k: nat, limit: int): Stage {
    if k == 0 then Arrived else if k == 1 then Cleared
    else if k == 2 then Admitted(Someone, limit) else Unknown(Someone, limit)
  }

  function StepAt(k: nat, h: Hid, limit: int): Event {
    if k == 0 then Arrive(h, h) else if k == 1 then CheckRevoked(h)
    else if k == 2 then Authenticate(h, Someone, limit) else CheckKnown(h)
  }

  lemma AdmitStep(s: State, i: nat, j: nat, k: nat, limit: int)
    requires i < limit && k < 4
    requires if k == 0 then Looks(s, i, j, i + j, Arrived) else Looks(s, i, j, i + j + 1, StageAt(k - 1, limit))
    ensures Enabled(s, StepAt(k, i + j, limit))
    ensures Looks(Next(s, StepAt(k, i + j, limit)), i, j, i + j + 1, StageAt(k, limit))
  {
  }

  lemma PassStep(s: State, i: nat, j: nat, limit: int)
    requires i < limit && Looks(s, i, j, i + j + 1, Unknown(Someone, limit))
    ensures Enabled(s, CheckCount(i + j))
    ensures Looks(Next(s, CheckCount(i + j)), i, j + 1, i + j + 1, Arrived)
  {
  }

  /** One more handler walks from arrival to a passed check. */
  lemma AdmitOne(tr: seq<State>, es: seq<Event>, i: nat, j: nat, limit: int, window: nat)
    returns (tr': seq<State>, es': seq<Event>)
    requires GoodRun(tr, es, limit, window) && i < limit && j < window
    requires Looks(tr[|es|], i, j, i + j, Arrived)
    ensures GoodRun(tr', es', limit, window)
    ensures Looks(tr'[|es'|], i, j + 1, i + j + 1, Arrived)
  {
    tr', es' := tr, es;
    var k := 0;
    while k < 4
      invariant 0 <= k <= 4
      invariant GoodRun(tr', es', limit, window)
      invariant if k == 0 then Looks(tr'[|es'|], i, j, i + j, Arrived)
                else Looks(tr'[|es'|], i, j, i + j + 1, StageAt(k - 1, limit))
    {
      AdmitStep(tr'[|es'|], i, j, k, limit);
      tr', es' := Grow(tr', es', StepAt(k, i + j, limit), i, j, i + j + 1, StageAt(k, limit), limit, window);
      k := k + 1;
    }
    PassStep(tr'[|es'|], i, j, limit);
    tr', es' := Grow(tr', es', CheckCount(i + j), i, j + 1, i + j + 1, Arrived, limit, window);
  }

  lemma RegisterOne(tr: seq<State>, es: seq<Event>, i: nat, limit: int, window: nat)
    returns (tr': seq<State>, es': seq<Event>)
    requires GoodRun(tr, es, limit, window) && i + 1 < limit && Looks(tr[|es|], i, 1, i + 1, Arrived)
    ensures GoodRun(tr', es', limit, window) && Looks(tr'[|es'|], i + 1, 0, i + 1, Arrived)
  {
    tr', es' := Grow(tr, es, Enter(i, "", 0), i + 1, 0, i + 1, Arrived, limit, window);
  }

  lemma TightRun(limit: int, window: nat) returns (tr: seq<State>, es: seq<Event>)
    requires limit >= 1 && window >= 1
    ensures GoodRun(tr, es, limit, window) && Looks(tr[|es|], limit - 1, window, limit - 1 + window, Arrived)
  {
    tr, es := [Initial], [];
    LooksSetting(Initial, 0, 0, 0, Arrived, limit, window);
    var i := 0;
    while i < limit - 1
      invariant 0 <= i <= limit - 1
      invariant GoodRun(tr, es, limit, window) && Looks(tr[|es|], i, 0, i, Arrived)
    {
      tr, es := AdmitOne(tr, es, i, 0, limit, window);
      tr, es := RegisterOne(tr, es, i, limit, window);
      i := i + 1;
    }
    var j := 0;
    while j < window
      invariant 0 <= j <= window
      invariant GoodRun(tr, es, limit, window) && Looks(tr[|es|], i, j, i + j, Arrived)
    {
      tr, es := AdmitOne(tr, es, i, j, limit, window);
      j := j + 1;
    }
  }

  /** For every limit and every window width there is a run, with one user per connection, that reaches the
      bound of `DeviceCap`. So the documented cap can be broken as soon as two handlers share the window. */
  lemma CapIsTight(limit: int, window: nat) returns (tr: seq<State>, es: seq<Event>)
    requires limit >= 1 && window >= 1
    ensures IsRun(tr, es) && NeverSlips(tr, es, Someone, |es|)
    ensures forall k | 0 <= k < |tr| :: CapSetting(tr[k], Someone, limit, window)
    ensures |Devices(tr[|es|], Someone)| == limit - 1 + window
    ensures window > 1 ==> |Devices(tr[|es|], Someone)| > limit
  {
    tr, es := TightRun(limit, window);
    OneUserNeverSlips(tr, es, Owner(limit + window), Someone, |es|);
    LooksDevices(tr[|es|], limit - 1, window, Arrived);
  }

  // ---------------------------------------------------------------- a shared connection

  const Other: User := "other"

  /** Someone serves on connections 0..n; then handler n, of Other, and handler n + 1, of Someone, come on
      connection n, as far as `m` says, and stand at `a` and `b`. */
  ghost predicate Sharing(s: State, n: nat, m: nat, a: Stage, b: Stage) {
    && n <= m <= n + 2
    && (forall h: Hid :: h in s.hs <==> h < m)
    && (forall h: Hid | h < n :: s.hs[h] == Handler(h, Serving(Someone)))
    && (m > n ==> s.hs[n] == Handler(n, a))
    && (m > n + 1 ==> s.hs[n + 1] == Handler(n, b))
    && s.ix.revoked == map[] && (m > n && a == Serving(Other) ==> n in s.ix.entries)
  }

  function OtherStage(k: nat): Stage {
    if k == 0 then Arrived else if k == 1 then Cleared else if k == 2 then Admitted(Other, 0)
    else if k == 3 then Passed(Other) else Serving(Other)
  }

  function OtherStep(n: nat, k: nat): Event {
    if k == 0 then Arrive(n, n) else if k == 1 then CheckRevoked(n) else if k == 2 then Authenticate(n, Other, 0)
    else if k == 3 then CheckKnown(n) else Enter(n, "", 0)
  }

  function MyStage(k: nat, limit: int): Stage {
    if k == 0 then Arrived else if k == 1 then Cleared else Admitted(Someone, limit)
  }

  function MyStep(n: nat, k: nat, limit: int): Event {
    if k == 0 then Arrive(n + 1, n) else if k == 1 then CheckRevoked(n + 1) else Authenticate(n + 1, Someone, limit)
  }

  lemma OtherMoves(s: State, n: nat, k: nat)
    requires k < 5 && if k == 0 then Sharing(s, n, n, Arrived, Arrived) else Sharing(s, n, n + 1, OtherStage(k - 1), Arrived)
    ensures Enabled(s, OtherStep(n, k)) && Sharing(Next(s, OtherStep(n, k)), n, n + 1, OtherStage(k), Arrived)
  {
  }

  lemma MyMoves(s: State, n: nat, k: nat, limit: int)
    requires k < 3
    requires if k == 0 then Sharing(s, n, n + 1, Serving(Other), Arrived) else Sharing(s, n, n + 2, Serving(Other), MyStage(k - 1, limit))
    ensures Enabled(s, MyStep(n, k, limit)) && Sharing(Next(s, MyStep(n, k, limit)), n, n + 2, Serving(Other), MyStage(k, limit))
  {
  }

  ghost predicate CapRun(tr: seq<State>, es: seq<Event>, limit: int) {
    IsRun(tr, es) && forall k | 0 <= k < |tr| :: CapSetting(tr[k], Someone, limit, 1)
  }

  lemma SharingSetting(s: State, n: nat, m: nat, a: Stage, b: Stage, limit: int)
    requires Sharing(s, n, m, a, b) && UserOf(a) != Some(Someone)
    requires b == Arrived || b == Cleared || b == Admitted(Someone, limit) || b == Passed(Someone)
    ensures CapSetting(s, Someone, limit, 1)
  {
    assert Passing(s, Someone) <= {n + 1};
    if n + 1 in Passing(s, Someone) {
      assert Passing(s, Someone) == {n + 1};
    } else {
      assert Passing(s, Someone) == {};
    }
  }

  lemma CapGrow(tr: seq<State>, es: seq<Event>, e: Event, limit: int) returns (tr': seq<State>, es': seq<Event>)
    requires CapRun(tr, es, limit) && Enabled(tr[|es|], e) && CapSetting(Next(tr[|es|], e), Someone, limit, 1)
    ensures CapRun(tr', es', limit) && tr'[|es'|] == Next(tr[|es|], e)
  {
    var s := Next(tr[|es|], e);
    Extend(tr, es, e, s);
    tr', es' := tr + [s], es + [e];
    forall k | 0 <= k < |tr'| ensures CapSetting(tr'[k], Someone, limit, 1) {
      assert k < |tr| ==> tr'[k] == tr[k];
    }
  }

  lemma FullNext(s: State, n: nat)
    requires n >= 1 && Looks(s, n - 1, 1, n, Arrived)
    ensures Enabled(s, Enter(n - 1, "", 0)) && Sharing(Next(s, Enter(n - 1, "", 0)), n, n, Arrived, Arrived)
  {
  }

  /** Someone has registered `limit` devices one after the other. */
  lemma FullRun(limit: int) returns (tr: seq<State>, es: seq<Event>)
    requires limit >= 1
    ensures CapRun(tr, es, limit) && Sharing(tr[|es|], limit, limit, Arrived, Arrived)
  {
    tr, es := TightRun(limit, 1);
    FullNext(tr[|es|], limit);
    SharingSetting(Next(tr[|es|], Enter(limit - 1, "", 0)), limit, limit, Arrived, Arrived, limit);
    tr, es := CapGrow(tr, es, Enter(limit - 1, "", 0), limit);
  }

  /** Other then registers on a new connection, and a handler of Someone comes on it. */
  lemma SharedRun(limit: int) returns (tr: seq<State>, es: seq<Event>)
    requires limit >= 1
    ensures CapRun(tr, es, limit) && Sharing(tr[|es|], limit, limit + 2, Serving(Other), Admitted(Someone, limit))
  {
    tr, es := FullRun(limit);
    var k := 0;
    while k < 5
      invariant 0 <= k <= 5 && CapRun(tr, es, limit)
      invariant if k == 0 then Sharing(tr[|es|], limit, limit, Arrived, Arrived)
                else Sharing(tr[|es|], limit, limit + 1, OtherStage(k - 1), Arrived)
    {
      OtherMoves(tr[|es|], limit, k);
      SharingSetting(Next(tr[|es|], OtherStep(limit, k)), limit, limit + 1, OtherStage(k), Arrived, limit);
      tr, es := CapGrow(tr, es, OtherStep(limit, k), limit);
      k := k + 1;
    }
    k := 0;
    while k < 3
      invariant 0 <= k <= 3 && CapRun(tr, es, limit)
      invariant if k == 0 then Sharing(tr[|es|], limit, limit + 1, Serving(Other), Arrived)
                else Sharing(tr[|es|], limit, limit + 2, Serving(Other), MyStage(k - 1, limit))
    {
      MyMoves(tr[|es|], limit, k, limit);
      SharingSetting(Next(tr[|es|], MyStep(limit, k, limit)), limit, limit + 2, Serving(Other), MyStage(k, limit), limit);
      tr, es := CapGrow(tr, es, MyStep(limit, k, limit), limit);
      k := k + 1;
    }
  }

  lemma ServesBelow(s: State, n: nat, m: nat, a: Stage, b: Stage, c: Conn)
    requires Sharing(s, n, m, a, b) && c < n
    ensures c in Devices(s, Someone)
  {
    assert c in s.hs && s.hs[c] == Handler(c, Serving(Someone));
  }

  lemma DeviceBelow(s: State, n: nat, a: Stage, b: Stage, h: Hid)
    requires Sharing(s, n, n + 2, a, b) && a == Serving(Other) && b.Admitted? && h in s.hs
    requires s.hs[h].stage == Passed(Someone) || s.hs[h].stage == Serving(Someone)
    ensures s.hs[h].conn == h < n
  {
  }

  lemma SharingDevices(s: State, n: nat, a: Stage, b: Stage)
    requires Sharing(s, n, n + 2, a, b) && a == Serving(Other) && b.Admitted?
    ensures Devices(s, Someone) == Range(0, n)
  {
    forall c | c in Range(0, n) ensures c in Devices(s, Someone) {
      ServesBelow(s, n, n + 2, a, b, c);
    }
    forall c | c in Devices(s, Someone) ensures c in Range(0, n) {
      var h :| h in s.hs && (s.hs[h].stage == Passed(Someone) || s.hs[h].stage == Serving(Someone)) && s.hs[h].conn == c;
      DeviceBelow(s, n, a, b, h);
    }
  }

  /** The handler that comes on the shared connection slips. */
  lemma SharingSlips(s: State, n: nat, limit: int)
    requires Sharing(s, n, n + 2, Serving(Other), Admitted(Someone, limit))
    ensures Slips(s, CheckKnown(n + 1), Someone) && |Devices(s, Someone)| == n
    ensures Sharing(Next(s, CheckKnown(n + 1)), n, n + 2, Serving(Other), Passed(Someone))
  {
    SharingDevices(s, n, Serving(Other), Admitted(Someone, limit));
  }

  /** On a connection that another user's stream keeps known, the cap is broken for every limit, with never more
      than one handler in the window. */
  lemma SharedBreaksCap(limit: int) returns (tr: seq<State>, es: seq<Event>)
    requires limit >= 1
    ensures IsRun(tr, es) && forall k | 0 <= k < |tr| :: CapSetting(tr[k], Someone, limit, 1)
    ensures |Devices(tr[|es|], Someone)| == limit + 1
  {
    tr, es := SharedRun(limit);
    var s, e := tr[|es|], CheckKnown(limit + 1);
    SharingSlips(s, limit, limit);
    SlipAdds(s, e, Someone);
    SharingSetting(Next(s, e), limit, limit + 2, Serving(Other), Passed(Someone), limit);
    tr, es := CapGrow(tr, es, e, limit);
  }
}
