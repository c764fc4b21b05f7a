/** IPv4 prefixes, a routing table and longest-prefix lookup (section 5.2.4.3 of RFC 1812), and what the
    split-default trick does to the lookup of every address. */
module Routes {
  import opened Tracker

  function Pow2(n: nat): nat {
    if n == 0 then 1 else 2 * Pow2(n - 1)
  }

  /** Number of addresses under a prefix of the given length. */
  function Size(len: nat): (r: nat)
    requires len <= 32
    ensures r > 0
  {
    PowPositive(32 - len);
    Pow2(32 - len)
  }

  lemma {:induction false} PowPositive(n: nat)
    ensures Pow2(n) > 0
  {
    if n > 0 { PowPositive(n - 1); }
  }

  type Addr = a: nat | a < 0x1_0000_0000

  datatype Prefix = Prefix(base: nat, len: nat) {
    predicate Valid() {
      len <= 32 && base % Size(len) == 0 && base + Size(len) <= 0x1_0000_0000
    }
    predicate Covers(a: Addr)
      requires Valid()
    {
      base <= a < base + Size(len)
    }
  }

  lemma MulSign(s: int, d: int)
    requires s > 0
    ensures d >= 1 ==> s * d >= s
    ensures d <= -1 ==> s * d <= -s
  {
    if d >= 1 {
      assert s * d == s + s * (d - 1);
    } else {
      assert s * d == -s - s * (-1 - d);
    }
  }

  lemma ModUnique(a: int, s: int, q: int, r: int)
    requires s > 0 && a == s * q + r && 0 <= r < s
    ensures a % s == r
  {
    var q2, r2 := a / s, a % s;
    assert a == s * q2 + r2;
    MulSign(s, q - q2);
    assert s * (q - q2) == s * q - s * q2;
  }

  lemma ModBelow(a: nat, s: nat)
    requires s > 0
    ensures a % s <= a
  {
    if a < s {
      ModUnique(a, s, 0, a);
    }
  }

  /** The one prefix of length `len` that can cover `a`. */
  function At(a: Addr, len: nat): Prefix
    requires len <= 32
  {
    ModBelow(a, Size(len));
    Prefix(a - a % Size(len), len)
  }

  /** A prefix covers an address exactly when masking the address to its length gives the prefix. */
  lemma CoversIffAt(p: Prefix, a: Addr)
    requires p.Valid()
    ensures p.Covers(a) <==> p == At(a, p.len)
  {
    var s := Size(p.len);
    if p.Covers(a) {
      assert p.base == s * (p.base / s);
      ModUnique(a, s, p.base / s, a - p.base);
    }
  }

  datatype Dest = V4(p: Prefix) | V6(text: string)
  datatype Hop = Gateway(ip: string) | Interface(name: string)
  type Table = map<Dest, Hop>

  const Default := V4(Prefix(0, 0))
  const LowHalf := V4(Prefix(0, 1))
  const HighHalf := V4(Prefix(0x8000_0000, 1))

  function Host(a: Addr): Dest {
    V4(Prefix(a, 32))
  }

  predicate IsHalf(d: Dest) {
    d == LowHalf || d == HighHalf
  }

  lemma Pow31()
    ensures Pow2(31) == 0x8000_0000
  {
    assert Pow2(8) == 256;
    assert Pow2(16) == 65536 by { assert Pow2(12) == 4096; }
    assert Pow2(24) == 0x100_0000 by { assert Pow2(20) == 0x10_0000; }
    assert Pow2(28) == 0x1000_0000;
  }

  lemma HalfAt(a: Addr)
    ensures IsHalf(V4(At(a, 1)))
  {
    Pow31();
    if a < 0x8000_0000 { ModUnique(a, 0x8000_0000, 0, a); } else { ModUnique(a, 0x8000_0000, 1, a - 0x8000_0000); }
  }

  lemma HostAt(a: Addr)
    ensures V4(At(a, 32)) == Host(a)
  {
    ModUnique(a, 1, a, 0);
  }

  lemma DefaultAt(a: Addr)
    ensures V4(At(a, 0)) == Default
  {
    Pow31();
    assert Pow2(32) == 2 * Pow2(31);
    ModUnique(a, 0x1_0000_0000, 0, a);
  }

  /** Length of the longest matching prefix not longer than `len`; -1 without a match. */
  function BestFrom(t: Table, a: Addr, len: nat): (b: int)
    requires len <= 32
    ensures -1 <= b <= len
    ensures b >= 0 ==> V4(At(a, b)) in t
    ensures forall l | b < l <= len :: V4(At(a, l)) !in t
  {
    if V4(At(a, len)) in t then len
    else if len == 0 then -1
    else BestFrom(t, a, len - 1)
  }

  function Best(t: Table, a: Addr): int {
    BestFrom(t, a, 32)
  }

  function Lookup(t: Table, a: Addr): Option<Hop> {
    var b := Best(t, a);
    if b < 0 then None else Some(t[V4(At(a, b))])
  }

  /** The route that RFC 1812 asks for: it covers the address and no covering route is longer. */
  ghost predicate Longest(t: Table, a: Addr, p: Prefix) {
    && p.Valid() && V4(p) in t && p.Covers(a)
    && forall q: Prefix | q.Valid() && V4(q) in t && q.Covers(a) :: q.len <= p.len
  }

  /** Rounding down to a multiple. */
  lemma RoundDown(a: nat, s: nat)
    requires s > 0
    ensures a % s <= a && (a - a % s) % s == 0 && a - a % s <= a < a - a % s + s
  {
    var q := a / s;
    assert a == s * q + a % s;
    ModUnique(s * q, s, q, 0);
    ModBelow(a, s);
  }

  lemma AtValid(a: Addr, len: nat)
    requires len <= 32
    ensures At(a, len).Valid() && At(a, len).Covers(a)
  {
    RoundDown(a, Size(len));
    SizeFits(a, len);
  }

  lemma {:induction false} PowSum(m: nat, n: nat)
    ensures Pow2(m) * Pow2(n) == Pow2(m + n)
  {
    if m > 0 {
      PowSum(m - 1, n);
      assert Pow2(m) * Pow2(n) == 2 * (Pow2(m - 1) * Pow2(n));
    }
  }

  lemma BelowMultiple(s: nat, q: nat, n: nat)
    requires s > 0 && s * q < s * n
    ensures s * q + s <= s * n
  {
    assert q >= n ==> s * q >= s * n;
    assert s * (q + 1) <= s * n;
  }

  lemma BlockFits(a: nat, s: nat, n: nat)
    requires s > 0 && a < s * n
    ensures a - a % s + s <= s * n
  {
    var q := a / s;
    assert a == s * q + a % s;
    BelowMultiple(s, q, n);
  }

  lemma SizeFits(a: Addr, len: nat)
    requires len <= 32
    ensures a - a % Size(len) + Size(len) <= 0x1_0000_0000
  {
    Pow31();
    PowSum(32 - len, len);
    BlockFits(a, Size(len), Pow2(len));
  }

  /** The search by decreasing length finds the longest match, and fails only when nothing matches. */
  lemma LookupIsLongest(t: Table, a: Addr)
    ensures Lookup(t, a).Some? ==> exists p: Prefix :: Longest(t, a, p) && t[V4(p)] == Lookup(t, a).value
    ensures Lookup(t, a).None? ==> forall p: Prefix | p.Valid() && V4(p) in t :: !p.Covers(a)
    ensures forall p: Prefix | Longest(t, a, p) :: Lookup(t, a) == Some(t[V4(p)])
  {
    var b := Best(t, a);
    forall q: Prefix | q.Valid() && V4(q) in t && q.Covers(a) ensures q.len <= b {
      CoversIffAt(q, a);
    }
    if b >= 0 {
      AtValid(a, b);
      assert Longest(t, a, At(a, b));
    }
    forall p: Prefix | Longest(t, a, p) ensures Lookup(t, a) == Some(t[V4(p)]) {
      CoversIffAt(p, a);
    }
  }

  // ---------------------------------------------------------------- split default

  /** `t` is `base` plus the routes in `owned`, each owned once and absent from `base`. */
  ghost predicate Extends(t: Table, base: Table, owned: multiset<Dest>) {
    && (forall d :: d in t <==> d in base || d in owned)
    && (forall d | d in owned :: owned[d] == 1 && d !in base)
    && (forall d | d in base :: t[d] == base[d])
  }

  /** A successful installation: both halves go to the TUN, every other owned route to the old gateway. */
  ghost predicate Installed(t: Table, base: Table, owned: multiset<Dest>, gw: string, tun: string) {
    && Extends(t, base, owned)
    && Default in base
    && LowHalf in owned && HighHalf in owned
    && (forall d | d in owned :: t[d] == if IsHalf(d) then Interface(tun) else Gateway(gw))
  }

  /** The owned routes that lead around the tunnel, as a table. */
  ghost function Bypass(t: Table, owned: multiset<Dest>): Table {
    map d | d in t && d in owned && !IsHalf(d) :: t[d]
  }

  /** Main result: where every IPv4 address goes. A bypass longer than any original match leads to the old
      gateway; otherwise an original route longer than the default still decides; the rest goes to the TUN. */
  lemma SplitDefault(t: Table, base: Table, owned: multiset<Dest>, gw: string, tun: string, a: Addr)
    requires Installed(t, base, owned, gw, tun)
    ensures Lookup(t, a) ==
            if Best(Bypass(t, owned), a) > Best(base, a) then Some(Gateway(gw))
            else if Best(base, a) > 0 then Lookup(base, a)
            else Some(Interface(tun))
  {
    var around := Bypass(t, owned);
    var b, m, o := Best(t, a), Best(around, a), Best(base, a);
    DefaultAt(a);
    HalfAt(a);
    assert o >= 0;
    assert V4(At(a, 1)) in owned && V4(At(a, 1)) !in around && V4(At(a, 1)) !in base;
    assert o != 1 && m != 1 && m != 0;
    assert b >= 1;
    if m > o {
      assert V4(At(a, m)) in t;
      assert b == m;
    } else if o > 0 {
      assert V4(At(a, o)) in t;
      assert b == o;
    } else {
      assert b == 1;
    }
  }

  /** Host bypasses, the endpoint among them, always lead to the old gateway. */
  lemma HostBypassed(t: Table, base: Table, owned: multiset<Dest>, gw: string, tun: string, a: Addr)
    requires Installed(t, base, owned, gw, tun) && Host(a) in owned
    ensures Lookup(t, a) == Some(Gateway(gw))
  {
    HostAt(a);
    assert Best(t, a) == 32;
  }

  /** A network bypass leads to the old gateway wherever no longer original route covers the address. */
  lemma NetBypassed(t: Table, base: Table, owned: multiset<Dest>, gw: string, tun: string, p: Prefix, a: Addr)
    requires Installed(t, base, owned, gw, tun) && p.Valid() && V4(p) in owned && !IsHalf(V4(p)) && p.Covers(a)
    requires forall q: Prefix | q.Valid() && V4(q) in base && q.Covers(a) :: q.len <= p.len
    ensures Lookup(t, a) == Some(Gateway(gw))
  {
    CoversIffAt(p, a);
    var around, o := Bypass(t, owned), Best(base, a);
    assert V4(p) in around;
    assert Best(around, a) >= p.len;
    if o >= 0 {
      AtValid(a, o);
      assert V4(At(a, o)) in base && V4(p) !in base;
    }
    SplitDefault(t, base, owned, gw, tun, a);
  }

  /** An address that fell to the default route and is not bypassed now goes through the tunnel. */
  lemma DefaultTunneled(t: Table, base: Table, owned: multiset<Dest>, gw: string, tun: string, a: Addr)
    requires Installed(t, base, owned, gw, tun)
    requires forall q: Prefix | q.Valid() && V4(q) in base && q.Covers(a) :: q.len == 0
    requires forall q: Prefix | q.Valid() && V4(q) in owned && !IsHalf(V4(q)) :: !q.Covers(a)
    ensures Lookup(t, a) == Some(Interface(tun))
  {
    var around := Bypass(t, owned);
    var m, o := Best(around, a), Best(base, a);
    if o >= 0 { AtValid(a, o); }
    if m >= 0 { AtValid(a, m); }
    assert m == -1;
    SplitDefault(t, base, owned, gw, tun, a);
  }
}
