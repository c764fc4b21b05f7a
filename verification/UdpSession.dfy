/** Per-connection UDP sockets: every operation is one lock section, so a run is any sequence of them. */
module UdpSession {
  import opened Tracker

  type Sock = nat
  datatype Key = Key(srcAddr: string, srcPort: nat, dstAddr: string, dstPort: nat)
  datatype UdpConn = UdpConn(sock: Sock, lastSeen: int)

  /** `open` and `used` belong to the operating system: sockets open now, and ever opened by the session. */
  datatype State = State(conns: map<Key, UdpConn>, closed: bool, open: set<Sock>, used: set<Sock>)

  datatype Op =
    | GetOrDial(key: Key, dialed: Option<Sock>, now: int)   // `dialed`: what the dial would return
    | Touch(sock: Sock, now: int)                           // a datagram was sent on this socket
    | Remove(key: Key)
    | Reap(now: int)
    | Close

  const Initial := State(map[], false, {}, {})

  ghost function Socks(conns: map<Key, UdpConn>): set<Sock> {
    set k | k in conns :: conns[k].sock
  }

  function Idle(conns: map<Key, UdpConn>, now: int, timeout: int): set<Key> {
    set k | k in conns && now - conns[k].lastSeen > timeout
  }

  predicate Enabled(s: State, op: Op) {
    op.GetOrDial? && op.dialed.Some? ==> op.dialed.value !in s.used
  }

  function Dropped(s: State, keys: set<Key>): State {
    s.(conns := s.conns - keys, open := s.open - (set k | k in keys && k in s.conns :: s.conns[k].sock))
  }

  function Next(s: State, op: Op, timeout: int): State {
    match op
    case GetOrDial(key, dialed, now) =>
      if s.closed || key in s.conns || dialed.None? then s
      else s.(conns := s.conns[key := UdpConn(dialed.value, now)],
              open := s.open + {dialed.value}, used := s.used + {dialed.value})
    case Touch(sock, now) =>
      s.(conns := map k | k in s.conns :: if s.conns[k].sock == sock then s.conns[k].(lastSeen := now) else s.conns[k])
    case Remove(key) => Dropped(s, {key})
    case Reap(now) => if s.closed then s else Dropped(s, Idle(s.conns, now, timeout))
    case Close => Dropped(s, s.conns.Keys).(closed := true)
  }

  /** The open sockets are exactly those in the map, one per key; a closed session has none. */
  ghost predicate Accounted(s: State) {
    && s.open == Socks(s.conns) && s.open <= s.used
    && (forall j, k | j in s.conns && k in s.conns && j != k :: s.conns[j].sock != s.conns[k].sock)
    && (s.closed ==> s.conns == map[])
  }

  lemma SocksMember(conns: map<Key, UdpConn>, k: Key)
    requires k in conns
    ensures conns[k].sock in Socks(conns)
  {
  }

  lemma DroppedAccounted(s: State, keys: set<Key>)
    requires Accounted(s)
    ensures Accounted(Dropped(s, keys))
  {
    var t := Dropped(s, keys);
    forall x | x in Socks(t.conns) ensures x in t.open {
      var k :| k in t.conns && t.conns[k].sock == x;
      SocksMember(s.conns, k);
    }
    forall x | x in t.open ensures x in Socks(t.conns) {
      var k :| k in s.conns && s.conns[k].sock == x;
      assert k !in keys;
      SocksMember(t.conns, k);
    }
  }

  lemma DialAccounted(s: State, op: Op, timeout: int)
    requires Accounted(s) && op.GetOrDial? && Enabled(s, op)
    ensures Accounted(Next(s, op, timeout))
  {
    var t := Next(s, op, timeout);
    if t != s {
      forall x ensures x in t.open <==> x in Socks(t.conns) {
        SocksMember(t.conns, op.key);
        if x in s.open {
          var k :| k in s.conns && s.conns[k].sock == x;
          SocksMember(t.conns, k);
        }
        if x in Socks(t.conns) && x != op.dialed.value {
          var k :| k in t.conns && t.conns[k].sock == x;
          SocksMember(s.conns, k);
        }
      }
      forall k | k in s.conns ensures s.conns[k].sock != op.dialed.value {
        SocksMember(s.conns, k);
      }
    }
  }

  lemma TouchAccounted(s: State, op: Op, timeout: int)
    requires Accounted(s) && op.Touch?
    ensures Accounted(Next(s, op, timeout))
  {
    var t := Next(s, op, timeout);
    forall x ensures x in Socks(t.conns) <==> x in Socks(s.conns) {
      if x in Socks(s.conns) {
        var k :| k in s.conns && s.conns[k].sock == x;
        SocksMember(t.conns, k);
      }
      if x in Socks(t.conns) {
        var k :| k in t.conns && t.conns[k].sock == x;
        SocksMember(s.conns, k);
      }
    }
  }

  lemma StepAccounted(s: State, op: Op, timeout: int)
    requires Accounted(s) && Enabled(s, op)
    ensures Accounted(Next(s, op, timeout))
  {
    match op
    case GetOrDial(_, _, _) => DialAccounted(s, op, timeout);
    case Touch(_, _) => TouchAccounted(s, op, timeout);
    case Remove(key) => DroppedAccounted(s, {key});
    case Reap(now) => DroppedAccounted(s, Idle(s.conns, now, timeout));
    case Close => DroppedAccounted(s, s.conns.Keys);
  }

  ghost predicate IsRun(tr: seq<State>, ops: seq<Op>, timeout: int) {
    && |tr| == |ops| + 1
    && tr[0] == Initial
    && forall i | 0 <= i < |ops| :: Enabled(tr[i], ops[i]) && tr[i + 1] == Next(tr[i], ops[i], timeout)
  }

  /** Main result: no socket is ever leaked or counted twice, in any run. */
  lemma {:induction false} SocketAccounting(tr: seq<State>, ops: seq<Op>, timeout: int, i: nat)
    requires IsRun(tr, ops, timeout) && i < |tr|
    ensures Accounted(tr[i])
  {
    if i > 0 {
      SocketAccounting(tr, ops, timeout, i - 1);
      StepAccounted(tr[i - 1], ops[i - 1], timeout);
    } else {
      assert Socks(Initial.conns) == {};
    }
  }

  /** After a reaper tick of an open session no kept socket is idle beyond the timeout, and no other was closed. */
  lemma ReapExact(tr: seq<State>, ops: seq<Op>, timeout: int, i: nat)
    requires IsRun(tr, ops, timeout) && i < |ops| && ops[i].Reap? && !tr[i].closed
    ensures forall k :: k in tr[i + 1].conns <==> k in tr[i].conns && ops[i].now - tr[i].conns[k].lastSeen <= timeout
    ensures forall k | k in tr[i].conns :: tr[i].conns[k].sock in tr[i + 1].open <==> k in tr[i + 1].conns
  {
    SocketAccounting(tr, ops, timeout, i);
    SocketAccounting(tr, ops, timeout, i + 1);
    assert tr[i + 1] == Next(tr[i], ops[i], timeout);
    forall k | k in tr[i].conns ensures tr[i].conns[k].sock in tr[i + 1].open <==> k in tr[i + 1].conns {
      if k in tr[i + 1].conns {
        SocksMember(tr[i + 1].conns, k);
      }
    }
  }

  // ---------------------------------------------------------------- sockets in use

  /** The step neither removes `k` nor closes the session, does not set `sock` back before `t`, and a reaper tick
      comes within the timeout after `t`. */
  predicate Spares(op: Op, k: Key, sock: Sock, t: int, timeout: int) {
    match op
    case Remove(key) => key != k
    case Close => false
    case Reap(now) => now - t <= timeout
    case Touch(s, now) => s == sock ==> now >= t
    case GetOrDial(_, _, _) => true
  }

  /** The socket `sock` is open under `k` and was seen at `t` or later. */
  ghost predicate SeenSince(s: State, k: Key, sock: Sock, t: int) {
    k in s.conns && s.conns[k].sock == sock && s.conns[k].lastSeen >= t && sock in s.open
  }

  lemma SeenStep(s: State, op: Op, timeout: int, k: Key, sock: Sock, t: int)
    requires Accounted(s) && Enabled(s, op) && SeenSince(s, k, sock, t) && Spares(op, k, sock, t, timeout)
    ensures SeenSince(Next(s, op, timeout), k, sock, t)
  {
    StepAccounted(s, op, timeout);
    SocksMember(Next(s, op, timeout).conns, k);
  }

  lemma {:induction false} SeenSurvives(tr: seq<State>, ops: seq<Op>, timeout: int, i: nat, j: nat, k: Key, sock: Sock, t: int)
    requires IsRun(tr, ops, timeout) && i <= j < |tr| && SeenSince(tr[i], k, sock, t)
    requires forall m | i <= m < j :: Spares(ops[m], k, sock, t, timeout)
    ensures SeenSince(tr[j], k, sock, t)
    decreases j
  {
    if i < j {
      var m := j - 1;
      SeenSurvives(tr, ops, timeout, i, m, k, sock, t);
      SocketAccounting(tr, ops, timeout, m);
      SeenStep(tr[m], ops[m], timeout, k, sock, t);
    }
  }

  /** A socket on which a datagram was sent stays open, whatever else happens, until it is removed, the session is
      closed, or a tick finds it idle for longer than the timeout. */
  lemma TouchKeeps(tr: seq<State>, ops: seq<Op>, timeout: int, i: nat, j: nat, k: Key)
    requires IsRun(tr, ops, timeout) && i < j < |tr| && ops[i].Touch? && k in tr[i].conns && tr[i].conns[k].sock == ops[i].sock
    requires forall m | i < m < j :: Spares(ops[m], k, ops[i].sock, ops[i].now, timeout)
    ensures SeenSince(tr[j], k, ops[i].sock, ops[i].now)
  {
    assert tr[i + 1] == Next(tr[i], ops[i], timeout);
    SocketAccounting(tr, ops, timeout, i + 1);
    SocksMember(tr[i + 1].conns, k);
    SeenSurvives(tr, ops, timeout, i + 1, j, k, ops[i].sock, ops[i].now);
  }

  /** So does a socket just dialled. */
  lemma DialKeeps(tr: seq<State>, ops: seq<Op>, timeout: int, i: nat, j: nat)
    requires IsRun(tr, ops, timeout) && i < j < |tr| && ops[i].GetOrDial? && ops[i].dialed.Some?
    requires !tr[i].closed && ops[i].key !in tr[i].conns
    requires forall m | i < m < j :: Spares(ops[m], ops[i].key, ops[i].dialed.value, ops[i].now, timeout)
    ensures SeenSince(tr[j], ops[i].key, ops[i].dialed.value, ops[i].now)
  {
    assert tr[i + 1] == Next(tr[i], ops[i], timeout);
    SeenSurvives(tr, ops, timeout, i + 1, j, ops[i].key, ops[i].dialed.value, ops[i].now);
  }

  lemma {:induction false} UntouchedSeen(tr: seq<State>, ops: seq<Op>, timeout: int, i: nat, j: nat, k: Key, sock: Sock)
    requires IsRun(tr, ops, timeout) && i <= j < |tr| && sock in tr[i].used
    requires forall m | i <= m < j && ops[m].Touch? :: ops[m].sock != sock
    requires k in tr[j].conns && tr[j].conns[k].sock == sock
    ensures k in tr[i].conns && tr[j].conns[k] == tr[i].conns[k] && sock in tr[j].used
    decreases j
  {
    if i < j {
      var m := j - 1;
      assert Enabled(tr[m], ops[m]) && tr[j] == Next(tr[m], ops[m], timeout);
      UsedGrows(tr, ops, timeout, i, m, sock);
      assert k in tr[m].conns && tr[m].conns[k] == tr[j].conns[k];
      UntouchedSeen(tr, ops, timeout, i, m, k, sock);
    }
  }

  lemma {:induction false} UsedGrows(tr: seq<State>, ops: seq<Op>, timeout: int, i: nat, j: nat, sock: Sock)
    requires IsRun(tr, ops, timeout) && i <= j < |tr| && sock in tr[i].used
    ensures sock in tr[j].used
    decreases j
  {
    if i < j {
      UsedGrows(tr, ops, timeout, i, j - 1, sock);
      assert tr[j] == Next(tr[j - 1], ops[j - 1], timeout);
    }
  }

  /** Conversely, a socket on which nothing was sent since `t` does not outlive a tick later than the timeout after. */
  lemma IdleReaped(tr: seq<State>, ops: seq<Op>, timeout: int, i: nat, j: nat, sock: Sock)
    requires IsRun(tr, ops, timeout) && i < j < |ops| && ops[i].Touch? && ops[i].sock == sock && sock in tr[i].open
    requires forall m | i < m < j && ops[m].Touch? :: ops[m].sock != sock
    requires ops[j].Reap? && ops[j].now - ops[i].now > timeout
    ensures sock !in tr[j + 1].open
  {
    SocketAccounting(tr, ops, timeout, i);
    SocketAccounting(tr, ops, timeout, j);
    SocketAccounting(tr, ops, timeout, j + 1);
    assert tr[i + 1] == Next(tr[i], ops[i], timeout) && tr[j + 1] == Next(tr[j], ops[j], timeout);
    if sock in tr[j + 1].open {
      var k :| k in tr[j + 1].conns && tr[j + 1].conns[k].sock == sock;
      UntouchedSeen(tr, ops, timeout, i + 1, j, k, sock);
      assert false;
    }
  }

  /** A socket is closed only when its key is removed, when it has been idle too long, or with the session. */
  lemma ClosedOnlyFor(tr: seq<State>, ops: seq<Op>, timeout: int, i: nat, k: Key)
    requires IsRun(tr, ops, timeout) && i < |ops| && k in tr[i].conns
    ensures var op, x := ops[i], tr[i].conns[k];
            x.sock !in tr[i + 1].open <==> op.Close? || (op.Remove? && op.key == k) || (op.Reap? && op.now - x.lastSeen > timeout)
  {
    SocketAccounting(tr, ops, timeout, i);
    SocketAccounting(tr, ops, timeout, i + 1);
    assert tr[i + 1] == Next(tr[i], ops[i], timeout);
    SocksMember(tr[i].conns, k);
    if k in tr[i + 1].conns {
      SocksMember(tr[i + 1].conns, k);
    }
  }

  /** After `Close` none is open and none is ever opened again. */
  lemma {:induction false} ClosedForever(tr: seq<State>, ops: seq<Op>, timeout: int, i: nat, j: nat)
    requires IsRun(tr, ops, timeout) && i < j < |tr| && ops[i].Close?
    ensures tr[j].closed && tr[j].open == {} && tr[j].used == tr[i].used
    decreases j
  {
    SocketAccounting(tr, ops, timeout, j);
    if j == i + 1 {
      assert tr[j] == Next(tr[i], ops[i], timeout);
    } else {
      ClosedForever(tr, ops, timeout, i, j - 1);
      assert tr[j] == Next(tr[j - 1], ops[j - 1], timeout);
    }
    assert Socks(tr[j].conns) == {};
  }

  // ---------------------------------------------------------------- the session object

  class Network {
    var open: set<Sock>
    ghost var used: set<Sock>

    constructor ()
      ensures open == {} && used == {}
    {
      open, used := {}, {};
    }

    method Dial(offer: Option<Sock>) returns (r: Option<Sock>)
      requires offer.Some? ==> offer.value !in used
      modifies this
      ensures r == offer
      ensures open == old(open) + (if r.Some? then {r.value} else {}) && used == old(used) + (if r.Some? then {r.value} else {})
    {
      r := offer;
      if r.Some? {
        open := open + {r.value};
        used := used + {r.value};
      }
    }

    method Shut(s: Sock)
      modifies this`open
      ensures open == old(open) - {s}
    {
      open := open - {s};
    }
  }

  class Session {
    const net: Network
    const idleTimeout: int
    var conns: map<Key, UdpConn>
    var closed: bool

    ghost function View(): State
      reads this, net
    {
      State(conns, closed, net.open, net.used)
    }

    constructor (net: Network, idleTimeout: int)
      requires net.open == {} && net.used == {}
      ensures this.net == net && this.idleTimeout == idleTimeout && View() == Initial
    {
      this.net, this.idleTimeout := net, idleTimeout;
      conns, closed := map[], false;
    }

    /** The socket of a key, dialling it first when there is none; `None` when closed or the dial failed. */
    method GetOrDial(key: Key, offer: Option<Sock>, now: int) returns (r: Option<Sock>)
      requires offer.Some? ==> offer.value !in net.used
      modifies this, net
      ensures View() == Next(old(View()), Op.GetOrDial(key, offer, now), idleTimeout)
      ensures r.Some? <==> key in conns && !closed
      ensures r.Some? ==> r.value == conns[key].sock
      ensures old(Accounted(View())) && r.Some? ==> r.value in net.open
    {
      ghost var was := View();
      if closed {
        return None;
      }
      if key in conns {
        r := Some(conns[key].sock);
      } else {
        r := net.Dial(offer);
        if r.Some? {
          conns := conns[key := UdpConn(r.value, now)];
        }
      }
      if r.Some? {
        SocksMember(conns, key);
      }
    }

    method Remove(key: Key)
      modifies this, net
      ensures View() == Next(old(View()), Op.Remove(key), idleTimeout)
    {
      ghost var was := View();
      if key in conns {
        assert (set k | k in {key} && k in was.conns :: was.conns[k].sock) == {conns[key].sock};
        net.Shut(conns[key].sock);
        conns := conns - {key};
      } else {
        assert (set k | k in {key} && k in was.conns :: was.conns[k].sock) == {};
        assert conns - {key} == conns;
      }
    }

    /** One tick of the reaper. */
    method Reap(now: int)
      modifies this, net
      ensures View() == Next(old(View()), Op.Reap(now), idleTimeout)
    {
      if closed {
        return;
      }
      DropAll(Idle(conns, now, idleTimeout));
    }

    method Close()
      modifies this, net
      ensures View() == Next(old(View()), Op.Close, idleTimeout)
    {
      closed := true;
      DropAll(conns.Keys);
    }

    /** Closes and forgets the sockets of `keys`, one by one. */
    method DropAll(keys: set<Key>)
      requires keys <= conns.Keys
      modifies this`conns, net`open
      ensures View() == Dropped(old(View()), keys)
    {
      ghost var was := View();
      var todo := keys;
      assert conns - {} == conns;
      while todo != {}
        invariant todo <= keys
        invariant conns == was.conns - (keys - todo)
        invariant net.open == was.open - Socks(map k | k in keys - todo :: was.conns[k])
        decreases todo
      {
        var k :| k in todo;
        ghost var done := keys - todo;
        SocksGrow(was.conns, done, k);
        net.Shut(conns[k].sock);
        conns := conns - {k};
        todo := todo - {k};
        assert keys - todo == done + {k};
      }
      assert keys - todo == keys;
      assert Socks(map k | k in keys :: was.conns[k]) == set k | k in keys && k in was.conns :: was.conns[k].sock by {
        forall k | k in keys ensures was.conns[k].sock in Socks(map j | j in keys :: was.conns[j]) {
          SocksMember(map j | j in keys :: was.conns[j], k);
        }
      }
    }

    static lemma SocksGrow(conns: map<Key, UdpConn>, done: set<Key>, k: Key)
      requires done <= conns.Keys && k in conns
      ensures Socks(map j | j in done + {k} :: conns[j]) == Socks(map j | j in done :: conns[j]) + {conns[k].sock}
    {
      var small, big := map j | j in done :: conns[j], map j | j in done + {k} :: conns[j];
      SocksMember(big, k);
      forall x | x in Socks(small) ensures x in Socks(big) {
        var j :| j in small && small[j].sock == x;
        SocksMember(big, j);
      }
      forall x | x in Socks(big) && x != conns[k].sock ensures x in Socks(small) {
        var j :| j in big && big[j].sock == x;
        SocksMember(small, j);
      }
    }
  }
}
