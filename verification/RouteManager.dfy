/** The split-default route manager of the macOS client: installs, extends and undoes routes in the system
    table. Commands can fail: adding a route that is present and deleting one that is absent always do, and
    a command of a kind the system does not vouch for may fail at any time. */
module RouteManagement {
  import opened Tracker
  import opened Routes

  /** An exclusion after parsing and resolution: `None` stands for an IPv6 address or a failed lookup. */
  datatype Exclusion =
    | Blank
    | Net(d: Dest)
    | Address(ip: Option<Addr>)
    | Name(ips: Option<seq<Option<Addr>>>)

  /** There is a default route with a gateway. */
  predicate HasGateway(t: Table) {
    Default in t && t[Default].Gateway? && t[Default].ip != ""
  }

  /** The TUN peer, to which DNS is redirected. */
  const TUN_PEER := "10.99.0.1"

  const PUBLIC_DNS: seq<Addr> := [0x0101_0101, 0x0808_0808]

  class System {
    var table: Table
    var dns: map<string, seq<string>>   // per network service; [] is the "empty" setting
    const adds: bool        // adding an absent route succeeds
    const deletes: bool     // deleting a present route succeeds
    const dnsReads: bool    // the servers of a service are read correctly
    const dnsWrites: bool   // setting the servers of a service succeeds

    constructor (table: Table, dns: map<string, seq<string>>, adds: bool, deletes: bool, dnsReads: bool, dnsWrites: bool)
      ensures this.table == table && this.dns == dns
      ensures this.adds == adds && this.deletes == deletes && this.dnsReads == dnsReads && this.dnsWrites == dnsWrites
    {
      this.table, this.dns := table, dns;
      this.adds, this.deletes, this.dnsReads, this.dnsWrites := adds, deletes, dnsReads, dnsWrites;
    }

    method RouteAdd(d: Dest, hop: Hop) returns (ok: bool)
      modifies this`table
      ensures ok ==> d !in old(table) && table == old(table)[d := hop]
      ensures !ok ==> table == old(table)
      ensures adds && d !in old(table) ==> ok
    {
      var fails: bool := *;
      ok := d !in table && (adds || !fails);
      if ok {
        table := table[d := hop];
      }
    }

    method RouteDelete(d: Dest) returns (ok: bool)
      modifies this`table
      ensures ok ==> d in old(table) && table == old(table) - {d}
      ensures !ok ==> table == old(table)
      ensures deletes && d in old(table) ==> ok
    {
      var fails: bool := *;
      ok := d in table && (deletes || !fails);
      if ok {
        table := table - {d};
      }
    }

    method SetDNS(service: string, servers: seq<string>) returns (ok: bool)
      modifies this`dns
      ensures ok ==> service in old(dns) && dns == old(dns)[service := servers]
      ensures !ok ==> dns == old(dns)
      ensures dnsWrites && service in old(dns) ==> ok
    {
      var fails: bool := *;
      ok := service in dns && (dnsWrites || !fails);
      if ok {
        dns := dns[service := servers];
      }
    }

    method ReadDNS(service: string) returns (servers: seq<string>)
      ensures dnsReads && service in dns ==> servers == dns[service]
    {
      var fails: bool := *;
      servers := if service in dns && (dnsReads || !fails) then dns[service] else [];
    }

    /** Gateway and interface of the default route; fails when there is none or it has no gateway. */
    method ReadDefault(iface: string) returns (r: Option<(string, string)>)
      ensures r.Some? <==> HasGateway(table) && iface != ""
      ensures r.Some? ==> table[Default] == Gateway(r.value.0) && r.value.1 == iface
    {
      if Default in table && table[Default].Gateway? && table[Default].ip != "" && iface != "" {
        r := Some((table[Default].ip, iface));
      } else {
        r := None;
      }
    }
  }

  ghost function Halves(on: bool): multiset<Dest> {
    if on then multiset{LowHalf, HighHalf} else multiset{}
  }

  ghost function HopOf(d: Dest, on: bool, gw: string, tun: string): Hop {
    if on && IsHalf(d) then Interface(tun) else Gateway(gw)
  }

  ghost function RoutesFor(keys: set<Dest>, on: bool, gw: string, tun: string): Table {
    map d | d in keys :: HopOf(d, on, gw, tun)
  }

  /** `t` is `base` plus the routes in `keys`, which are the recorded side routes and, once on, the halves. */
  ghost predicate Booked(t: Table, base: Table, keys: set<Dest>, side: multiset<Dest>, on: bool, gw: string, tun: string) {
    && t == base + RoutesFor(keys, on, gw, tun)
    && keys !! base.Keys
    && multiset(keys) == side + Halves(on)
  }

  /** Recording a route that was absent keeps the books. */
  lemma BookStep(t: Table, base: Table, keys: set<Dest>, side: multiset<Dest>, on: bool, gw: string, tun: string, d: Dest)
    requires Booked(t, base, keys, side, on, gw, tun) && d !in t
    ensures Booked(t[d := Gateway(gw)], base, keys + {d}, side + multiset{d}, on, gw, tun)
  {
    assert d !in keys;
    assert on ==> !IsHalf(d) by {
      assert d !in multiset(keys);
    }
    assert multiset(keys + {d}) == multiset(keys) + multiset{d};
    assert t[d := Gateway(gw)] == base + RoutesFor(keys + {d}, on, gw, tun);
  }

  lemma BookListed(t: Table, base: Table, keys: set<Dest>, a: multiset<Dest>, list: seq<Dest>, b: multiset<Dest>,
                   on: bool, gw: string, tun: string, d: Dest)
    requires Booked(t, base, keys, a + multiset(list) + b, on, gw, tun) && d !in t
    ensures Booked(t[d := Gateway(gw)], base, keys + {d}, a + multiset(list + [d]) + b, on, gw, tun)
  {
    BookStep(t, base, keys, a + multiset(list) + b, on, gw, tun, d);
    assert a + multiset(list + [d]) + b == a + multiset(list) + b + multiset{d};
  }

  lemma BookStart(base: Table, gw: string, tun: string, d: Dest)
    requires d !in base
    ensures Booked(base[d := Gateway(gw)], base, {d}, multiset{d}, false, gw, tun)
  {
  }

  lemma BookHalves(t: Table, base: Table, keys: set<Dest>, side: multiset<Dest>, gw: string, tun: string)
    requires Booked(t, base, keys, side, false, gw, tun) && LowHalf !in t && HighHalf !in t
    ensures Booked(t[LowHalf := Interface(tun)][HighHalf := Interface(tun)], base, keys + {LowHalf, HighHalf}, side, true, gw, tun)
  {
    var more := keys + {LowHalf, HighHalf};
    assert LowHalf !in keys && HighHalf !in keys;
    assert multiset(more) == multiset(keys) + multiset{LowHalf, HighHalf};
    assert t[LowHalf := Interface(tun)][HighHalf := Interface(tun)] == base + RoutesFor(more, true, gw, tun);
  }

  lemma BookedExtends(t: Table, base: Table, keys: set<Dest>, side: multiset<Dest>, on: bool, gw: string, tun: string)
    requires Booked(t, base, keys, side, on, gw, tun)
    ensures Extends(t, base, side + Halves(on))
  {
    var owned := side + Halves(on);
    forall d ensures owned[d] == if d in keys then 1 else 0 {
      assert multiset(keys)[d] == owned[d];
    }
  }

  /** Booked halves amount to a successful installation, so the lookup theorems apply. */
  lemma BookedInstalled(t: Table, base: Table, keys: set<Dest>, side: multiset<Dest>, gw: string, tun: string)
    requires Booked(t, base, keys, side, true, gw, tun) && Default in base
    ensures Installed(t, base, side + Halves(true), gw, tun)
  {
    BookedExtends(t, base, keys, side, true, gw, tun);
    forall d | d in side + Halves(true) ensures d in keys {
      assert d in multiset(keys);
    }
  }

  lemma Shrink(t: Table, base: Table, owned: multiset<Dest>, d: Dest)
    requires Extends(t, base, owned) && d in owned
    ensures d in t && Extends(t - {d}, base, owned - multiset{d})
  {
  }

  lemma Bare(t: Table, base: Table)
    requires Extends(t, base, multiset{})
    ensures t == base
  {
  }

  ghost predicate Kept(before: Table, after: Table) {
    forall d | d in before :: d in after && after[d] == before[d]
  }

  /** The destination an exclusion asks to keep off the tunnel is in the table. */
  ghost predicate Handled(x: Exclusion, t: Table) {
    match x
    case Blank => true
    case Net(d) => d in t
    case Address(ip) => ip.Some? ==> Host(ip.value) in t
    case Name(ips) => ips.Some? ==> AllHosts(ips.value, t)
  }

  ghost predicate AllHosts(ips: seq<Option<Addr>>, t: Table) {
    forall i | 0 <= i < |ips| && ips[i].Some? :: Host(ips[i].value) in t
  }

  /** An IPv4 address of `ips` that is neither recorded nor routed. */
  ghost predicate IsLate(ips: seq<Option<Addr>>, listed: seq<Dest>, t: Table, d: Dest) {
    d !in listed && d !in t && exists i | 0 <= i < |ips| :: ips[i].Some? && Host(ips[i].value) == d
  }

  /** A prefix that an exclusion asks to keep off the tunnel. */
  ghost predicate Excludes(x: Exclusion, p: Prefix) {
    match x
    case Blank => false
    case Net(d) => d == V4(p)
    case Address(ip) => ip.Some? && p == Prefix(ip.value, 32)
    case Name(ips) => ips.Some? && exists i | 0 <= i < |ips.value| :: ips.value[i].Some? && p == Prefix(ips.value[i].value, 32)
  }

  class RouteManager {
    const sys: System
    const tunName: string
    const endpoint: Addr
    const exclusions: seq<Exclusion>
    var origGateway: string
    var dnsService: string
    var dnsServers: seq<string>
    var dnsBypass: seq<Dest>
    var hostBypass: seq<Dest>
    var netBypass: seq<Dest>
    var installed: bool
    ghost var keys: set<Dest>                    // the routes this manager owns
    ghost var base: Table                        // the table found by the last `Install`
    ghost var baseDns: map<string, seq<string>>  // the DNS settings found by the last `Install`

    constructor (sys: System, tunName: string, endpoint: Addr, exclusions: seq<Exclusion>)
      ensures Fresh() && origGateway == "" && this.sys == sys && this.tunName == tunName
      ensures this.endpoint == endpoint && this.exclusions == exclusions
    {
      this.sys, this.tunName, this.endpoint, this.exclusions := sys, tunName, endpoint, exclusions;
      origGateway, dnsService, dnsServers := "", "", [];
      dnsBypass, hostBypass, netBypass, installed := [], [], [], false;
    }

    ghost predicate Fresh()
      reads this
    {
      !installed && dnsBypass == [] && hostBypass == [] && netBypass == []
    }

    /** Routes recorded for removal, without the two halves. */
    ghost function Side(): multiset<Dest>
      reads this`dnsBypass, this`hostBypass, this`netBypass
    {
      multiset{Host(endpoint)} + multiset(dnsBypass) + multiset(hostBypass) + multiset(netBypass)
    }

    ghost predicate Book(on: bool, gw: string)
      reads this`dnsBypass, this`hostBypass, this`netBypass, this`base, this`keys, sys`table
    {
      Booked(sys.table, base, keys, Side(), on, gw, tunName)
    }

    /** Every exclusion has its route. */
    ghost predicate AllHandled()
      reads sys`table
    {
      forall i | 0 <= i < |exclusions| :: Handled(exclusions[i], sys.table)
    }

    /** No exclusion asks for one of the two halves. */
    ghost predicate NoHalf() {
      forall i | 0 <= i < |exclusions| && exclusions[i].Net? :: !IsHalf(exclusions[i].d)
    }

    /** The halves in the table are those of `before` and those that one of the first `upto` exclusions asks for. */
    ghost predicate HalvesFrom(before: Table, upto: nat)
      requires upto <= |exclusions|
      reads sys`table
    {
      forall d | IsHalf(d) && d in sys.table :: d in before || exists i | 0 <= i < upto :: exclusions[i] == Net(d)
    }

    /** Both public resolvers, 1.1.1.1 and 8.8.8.8, have their routes. */
    ghost predicate ResolversRouted()
      reads sys`table
    {
      Host(0x0101_0101) in sys.table && Host(0x0808_0808) in sys.table
    }

    /** Only the setting of `service` may have been replaced, by the TUN peer; where writing works it was. */
    ghost predicate DnsRedirected(service: string)
      reads this`baseDns, sys`dns
    {
      && (sys.dns == baseDns || (service != "" && service in baseDns && sys.dns == baseDns[service := [TUN_PEER]]))
      && (sys.dnsWrites && service != "" && service in baseDns ==> service in sys.dns && sys.dns[service] == ["10.99.0.1"])
    }

    /** Outside the recorded service, the DNS settings are the original ones. */
    ghost predicate DnsAside()
      reads this`dnsService, this`baseDns, sys`dns
    {
      && sys.dns.Keys == baseDns.Keys
      && forall s | s in baseDns && (s != dnsService || s == "") :: sys.dns[s] == baseDns[s]
    }

    /** The manager and the system agree on an installed configuration. */
    ghost predicate Active()
      reads this, sys
    {
      installed && origGateway != "" && Default in base && DnsAside() && Book(true, origGateway)
    }

    /** The DNS servers recorded for restoring are the ones that were set. */
    ghost predicate DnsKnown()
      reads this`dnsService, this`dnsServers, this`baseDns
    {
      dnsService == "" || (dnsService in baseDns && dnsServers == baseDns[dnsService])
    }

    /** On success every exclusion is in the table (unless a command failed), the table is the original one
        extended by recorded routes only, and DNS goes to the TUN. `service` is the network service found for the
        interface. Where adding works, it succeeds exactly when it can. */
    method Install(iface: string, service: string, configured: bool) returns (ok: bool)
      modifies this, sys
      ensures ok && old(Fresh()) ==> Active() && base == old(sys.table) && baseDns == old(sys.dns)
      ensures ok ==> HasGateway(old(sys.table)) && old(sys.table)[Default] == Gateway(origGateway)
      ensures ok && sys.adds ==> AllHandled() && NoHalf() && ResolversRouted()
      ensures ok && sys.dnsReads && (service == "" || service in old(sys.dns)) ==> DnsKnown()
      ensures ok ==> dnsService == service && baseDns == old(sys.dns) && DnsRedirected(service)
      ensures sys.adds ==>
                (ok <==> && configured && HasGateway(old(sys.table)) && iface != ""
                         && Host(endpoint) !in old(sys.table) && NoHalf()
                         && LowHalf !in old(sys.table) && HighHalf !in old(sys.table))
    {
      ghost var clean := Fresh();
      base, baseDns := sys.table, sys.dns;
      var found := sys.ReadDefault(iface);
      if found.None? {
        return false;
      }
      origGateway := found.value.0;
      if !configured {
        return false;   // the TUN address could not be assigned
      }
      ok := InstallVia(service, clean);
      installed := installed || ok;
    }

    /** `Install` once the default route is known and the TUN has its address. */
    method InstallVia(service: string, ghost clean: bool) returns (ok: bool)
      requires sys.table == base && sys.dns == baseDns && (clean ==> Fresh())
      modifies this`dnsService, this`dnsServers, this`dnsBypass, this`hostBypass, this`netBypass, this`keys, sys
      ensures ok && clean ==> Book(true, origGateway)
      ensures ok ==> dnsService == service && DnsAside() && DnsRedirected(service)
      ensures ok && sys.dnsReads && (service == "" || service in baseDns) ==> DnsKnown()
      ensures ok && sys.adds ==> AllHandled() && NoHalf() && ResolversRouted()
      ensures sys.adds ==> (ok <==> Host(endpoint) !in base && NoHalf() && LowHalf !in base && HighHalf !in base)
    {
      ok := SetUp(service, clean);
      if ok {
        ok := Redirect();
      }
    }

    /** Second half of `Install`: the bypasses, then the two halves of the default route. */
    method Redirect() returns (ok: bool)
      modifies this`dnsBypass, this`hostBypass, this`netBypass, this`keys, sys`table
      ensures ok && old(Book(false, origGateway)) ==> Book(true, origGateway)
      ensures ok && sys.adds ==> AllHandled() && NoHalf() && ResolversRouted()
      ensures sys.adds ==> (ok <==> NoHalf() && LowHalf !in old(sys.table) && HighHalf !in old(sys.table))
    {
      BypassAll(origGateway);
      ghost var t := sys.table;
      assert sys.adds ==> forall i | 0 <= i < |exclusions| :: Handled(exclusions[i], t);
      ok := AddHalves();
    }

    /** First half of `Install`: the endpoint route, then the DNS override. */
    method SetUp(service: string, ghost clean: bool) returns (ok: bool)
      requires sys.table == base && sys.dns == baseDns && (clean ==> Fresh())
      modifies this`dnsService, this`dnsServers, this`keys, sys
      ensures ok && clean ==> Book(false, origGateway)
      ensures ok ==> dnsService == service && DnsAside() && DnsRedirected(service)
      ensures ok && sys.dnsReads && (service == "" || service in baseDns) ==> DnsKnown()
      ensures ok ==> Host(endpoint) !in base && sys.table == base[Host(endpoint) := Gateway(origGateway)]
      ensures sys.adds && Host(endpoint) !in base ==> ok
    {
      ok := BypassEndpoint(clean);
      if ok {
        OverrideDNS(service);
      }
    }

    method BypassAll(gw: string)
      modifies this`dnsBypass, this`hostBypass, this`netBypass, this`keys, sys`table
      ensures Kept(old(sys.table), sys.table)
      ensures old(Book(false, gw)) ==> Book(false, gw)
      ensures sys.adds ==> AllHandled() && ResolversRouted()
      ensures HalvesFrom(old(sys.table), |exclusions|)
    {
      BypassPublicDNS(gw);
      BypassExclusions(gw);
    }

    method BypassEndpoint(ghost clean: bool) returns (ok: bool)
      requires sys.table == base && (clean ==> Fresh())
      modifies sys`table, this`keys
      ensures ok && clean ==> Book(false, origGateway)
      ensures ok ==> Host(endpoint) !in base && sys.table == base[Host(endpoint) := Gateway(origGateway)]
      ensures sys.adds && Host(endpoint) !in base ==> ok
    {
      ok := sys.RouteAdd(Host(endpoint), Gateway(origGateway));
      if ok && clean {
        keys := {Host(endpoint)};
        BookStart(base, origGateway, tunName, Host(endpoint));
        assert Side() == multiset{Host(endpoint)};
      }
    }

    /** The split default: two half-space routes that win over the default without replacing it. */
    method AddHalves() returns (ok: bool)
      modifies sys`table, this`keys
      ensures Kept(old(sys.table), sys.table)
      ensures old(AllHandled()) ==> AllHandled()
      ensures ok ==> LowHalf !in old(sys.table) && HighHalf !in old(sys.table)
      ensures sys.adds && LowHalf !in old(sys.table) && HighHalf !in old(sys.table) ==> ok
      ensures ok && old(Book(false, origGateway)) ==> Book(true, origGateway)
    {
      ghost var t := sys.table;
      ok := sys.RouteAdd(LowHalf, Interface(tunName));
      if ok {
        ok := sys.RouteAdd(HighHalf, Interface(tunName));
        if ok {
          if Booked(t, base, keys, Side(), false, origGateway, tunName) {
            BookHalves(t, base, keys, Side(), origGateway, tunName);
          }
          keys := keys + {LowHalf, HighHalf};
        }
      }
      if old(AllHandled()) {
        forall i | 0 <= i < |exclusions| ensures Handled(exclusions[i], sys.table) {
          HandledKept(exclusions[i], t, sys.table);
        }
      }
    }

    static lemma HandledKept(x: Exclusion, before: Table, after: Table)
      requires Handled(x, before) && Kept(before, after)
      ensures Handled(x, after)
    {
    }

    method OverrideDNS(service: string)
      requires sys.dns == baseDns
      modifies this`dnsService, this`dnsServers, sys`dns
      ensures dnsService == service && DnsAside() && DnsRedirected(service)
      ensures sys.dnsReads && (service == "" || service in baseDns) ==> DnsKnown()
    {
      dnsService := service;
      if service != "" {
        dnsServers := sys.ReadDNS(service);
        var done := sys.SetDNS(service, [TUN_PEER]);
      }
    }

    method BypassPublicDNS(gw: string)
      modifies this`dnsBypass, this`keys, sys`table
      ensures Kept(old(sys.table), sys.table)
      ensures old(Book(false, gw)) ==> Book(false, gw)
      ensures sys.adds ==> ResolversRouted()
      ensures HalvesFrom(old(sys.table), 0)
    {
      var i := 0;
      while i < |PUBLIC_DNS|
        invariant 0 <= i <= |PUBLIC_DNS|
        invariant Kept(old(sys.table), sys.table)
        invariant old(Book(false, gw)) ==> Book(false, gw)
        invariant sys.adds ==> forall j | 0 <= j < i :: Host(PUBLIC_DNS[j]) in sys.table
        invariant HalvesFrom(old(sys.table), 0)
      {
        BypassResolver(Host(PUBLIC_DNS[i]), gw);
        i := i + 1;
      }
      assert PUBLIC_DNS[0] == 0x0101_0101 && PUBLIC_DNS[1] == 0x0808_0808;
    }

    method BypassResolver(d: Dest, gw: string)
      modifies this`dnsBypass, this`keys, sys`table
      ensures Kept(old(sys.table), sys.table)
      ensures old(Book(false, gw)) ==> Book(false, gw)
      ensures sys.adds ==> d in sys.table
      ensures forall e | e in sys.table :: e in old(sys.table) || e == d
    {
      ghost var t, side := sys.table, Side();
      var ok := sys.RouteAdd(d, Gateway(gw));
      if ok {
        dnsBypass := dnsBypass + [d];
        assert Side() == side + multiset{d};
        if Booked(t, base, keys, side, false, gw, tunName) {
          BookStep(t, base, keys, side, false, gw, tunName, d);
        }
        keys := keys + {d};
      }
    }

    method BypassExclusions(gw: string)
      modifies this`hostBypass, this`netBypass, this`keys, sys`table
      ensures Kept(old(sys.table), sys.table)
      ensures old(Book(false, gw)) ==> Book(false, gw)
      ensures sys.adds ==> AllHandled()
      ensures HalvesFrom(old(sys.table), |exclusions|)
    {
      var i := 0;
      while i < |exclusions|
        invariant 0 <= i <= |exclusions|
        invariant Kept(old(sys.table), sys.table) && HalvesFrom(old(sys.table), i)
        invariant old(Book(false, gw)) ==> Book(false, gw)
        invariant sys.adds ==> forall j | 0 <= j < i :: Handled(exclusions[j], sys.table)
      {
        ghost var t := sys.table;
        BypassOne(exclusions[i], gw);
        forall j | 0 <= j < i && sys.adds ensures Handled(exclusions[j], sys.table) {
          HandledKept(exclusions[j], t, sys.table);
        }
        i := i + 1;
      }
    }

    method BypassOne(x: Exclusion, gw: string)
      modifies this`hostBypass, this`netBypass, this`keys, sys`table
      ensures Kept(old(sys.table), sys.table)
      ensures old(Book(false, gw)) ==> Book(false, gw)
      ensures sys.adds ==> Handled(x, sys.table)
      ensures forall d | IsHalf(d) && d in sys.table :: d in old(sys.table) || x == Net(d)
    {
      match x
      case Blank =>
      case Net(d) =>
        BypassNet(d, gw);
      case Address(ip) =>
        if ip.Some? {
          BypassHost(ip.value, gw, false);
        }
      case Name(ips) =>
        if ips.Some? {
          var j := 0;
          while j < |ips.value|
            invariant 0 <= j <= |ips.value|
            invariant Kept(old(sys.table), sys.table)
            invariant old(Book(false, gw)) ==> Book(false, gw)
            invariant sys.adds ==> AllHosts(ips.value[..j], sys.table)
            invariant forall d | IsHalf(d) && d in sys.table :: d in old(sys.table)
          {
            assert ips.value[..j + 1] == ips.value[..j] + [ips.value[j]];
            if ips.value[j].Some? {
              BypassHost(ips.value[j].value, gw, false);
            }
            j := j + 1;
          }
          assert ips.value[..j] == ips.value;
        }
    }

    method BypassNet(d: Dest, gw: string)
      modifies this`netBypass, this`keys, sys`table
      ensures Kept(old(sys.table), sys.table)
      ensures old(Book(false, gw)) ==> Book(false, gw)
      ensures sys.adds ==> d in sys.table
      ensures forall e | e in sys.table :: e in old(sys.table) || e == d
    {
      ghost var t, side := sys.table, Side();
      var ok := sys.RouteAdd(d, Gateway(gw));
      if ok {
        netBypass := netBypass + [d];
        assert Side() == side + multiset{d};
        if Booked(t, base, keys, side, false, gw, tunName) {
          BookStep(t, base, keys, side, false, gw, tunName, d);
        }
        keys := keys + {d};
      }
    }

    method AddHostRoute(d: Dest, gw: string, ghost on: bool) returns (ok: bool)
      modifies this`hostBypass, this`keys, sys`table
      ensures ok ==> d !in old(sys.table) && sys.table == old(sys.table)[d := Gateway(gw)] && hostBypass == old(hostBypass) + [d]
      ensures !ok ==> sys.table == old(sys.table) && hostBypass == old(hostBypass)
      ensures sys.adds && d !in old(sys.table) ==> ok
      ensures old(Book(on, gw)) ==> Book(on, gw)
    {
      ghost var t, side := sys.table, Side();
      ok := sys.RouteAdd(d, Gateway(gw));
      if ok {
        hostBypass := hostBypass + [d];
        if Booked(t, base, keys, side, on, gw, tunName) {
          BookListed(t, base, keys, multiset{Host(endpoint)} + multiset(dnsBypass), old(hostBypass), multiset(netBypass),
                     on, gw, tunName, d);
        }
        keys := keys + {d};
      }
    }

    method BypassHost(ip: Addr, gw: string, ghost on: bool)
      modifies this`hostBypass, this`keys, sys`table
      ensures Kept(old(sys.table), sys.table)
      ensures old(Book(on, gw)) ==> Book(on, gw)
      ensures sys.adds ==> Host(ip) in sys.table
      ensures forall d | d in hostBypass :: d in old(hostBypass) || d in sys.table
      ensures forall d | d in sys.table :: d in old(sys.table) || d == Host(ip)
    {
      var _ := AddHostRoute(Host(ip), gw, on);
    }

    method BypassDynamic(ip: Addr)
      modifies this`hostBypass, this`keys, sys`table
      ensures Kept(old(sys.table), sys.table)
      ensures old(Active()) ==> Active()
      ensures forall d | d in sys.table :: d in old(sys.table) || (d == Host(ip) && d !in old(hostBypass))
      ensures sys.adds ==> Host(ip) in sys.table || Host(ip) in old(hostBypass)
      ensures forall d | d in old(hostBypass) :: d in hostBypass
      ensures forall d | d in hostBypass :: d in old(hostBypass) || d in sys.table
    {
      if Host(ip) in hostBypass {
        return;
      }
      var _ := AddHostRoute(Host(ip), origGateway, true);
    }

    lemma RecordedPresent(d: Dest)
      requires Active()
      ensures d in hostBypass ==> d in sys.table
    {
      assert d in hostBypass ==> d in multiset(keys);
    }

    /** Adds host bypasses while connected; skips IPv6, addresses already recorded, and routes present. */
    method AddDynamicHostBypassBatch(ips: seq<Option<Addr>>)
      modifies this`hostBypass, this`keys, sys`table
      ensures Kept(old(sys.table), sys.table)
      ensures origGateway == "" ==> sys.table == old(sys.table) && hostBypass == old(hostBypass)
      ensures old(Active()) ==> Active()
      ensures old(AllHandled()) ==> AllHandled()
      ensures old(Active()) && sys.adds ==> AllHosts(ips, sys.table)
      ensures forall d | d in sys.table :: d in old(sys.table) || IsLate(ips, old(hostBypass), old(sys.table), d)
      ensures origGateway != "" && sys.adds ==>
                forall d | IsLate(ips, old(hostBypass), old(sys.table), d) :: d in sys.table
    {
      if ips == [] || origGateway == "" {
        return;
      }
      ghost var t, listed := sys.table, hostBypass;
      var i := 0;
      while i < |ips|
        invariant 0 <= i <= |ips|
        invariant Kept(t, sys.table)
        invariant old(Active()) ==> Active()
        invariant forall d | d in listed :: d in hostBypass
        invariant forall d | d in hostBypass :: d in listed || d in sys.table
        invariant forall d | d in sys.table :: d in t || IsLate(ips, listed, t, d)
        invariant sys.adds ==> forall j | 0 <= j < i && ips[j].Some? :: Host(ips[j].value) in listed || Host(ips[j].value) in sys.table
      {
        if ips[i].Some? {
          BypassDynamic(ips[i].value);
        }
        i := i + 1;
      }
      forall j | 0 <= j < |ips| && ips[j].Some? && Active() && sys.adds ensures Host(ips[j].value) in sys.table {
        RecordedPresent(Host(ips[j].value));
      }
      forall j | 0 <= j < |exclusions| && old(AllHandled()) ensures Handled(exclusions[j], sys.table) {
        HandledKept(exclusions[j], t, sys.table);
      }
    }

    /** Deletes everything recorded and puts the DNS servers back; `ok` when no command failed. */
    method Restore() returns (ok: bool)
      modifies this, sys
      ensures base == old(base) && baseDns == old(baseDns) && origGateway == old(origGateway)
      ensures !installed
      ensures !old(installed) ==> ok && sys.table == old(sys.table) && sys.dns == old(sys.dns) && Side() == old(Side())
      ensures old(installed) ==> Fresh()
      ensures (ok || sys.deletes) && old(Active()) ==> sys.table == base
      ensures (ok || sys.dnsWrites) && old(Active()) && old(DnsKnown()) ==> sys.dns == baseDns
      ensures old(Active()) && old(DnsKnown()) && sys.deletes && sys.dnsWrites ==> ok
    {
      if !installed {
        return true;
      }
      ok := Undo();
      installed := false;
      dnsBypass, hostBypass, netBypass := [], [], [];
    }

    method Undo() returns (ok: bool)
      modifies sys
      ensures (ok || sys.deletes) && old(Book(true, origGateway)) ==> sys.table == base
      ensures (ok || sys.dnsWrites) && old(DnsAside()) && DnsKnown() ==> sys.dns == baseDns
      ensures old(Book(true, origGateway)) && old(DnsAside()) && DnsKnown() && sys.deletes && sys.dnsWrites ==> ok
    {
      if Book(true, origGateway) {
        BookedExtends(sys.table, base, keys, Side(), true, origGateway, tunName);
      }
      ghost var rest := multiset(dnsBypass) + multiset(hostBypass) + multiset(netBypass);
      assert Side() + Halves(true) == multiset([LowHalf, HighHalf, Host(endpoint)]) + rest;
      ok := DeleteAll([LowHalf, HighHalf, Host(endpoint)], rest);
      var named := RestoreDNS();
      var cleared := DeleteLists();
      ok := ok && named && cleared;
    }

    method RestoreDNS() returns (ok: bool)
      modifies sys`dns
      ensures ok && old(DnsAside()) && DnsKnown() ==> sys.dns == baseDns
      ensures old(DnsAside()) && DnsKnown() && sys.dnsWrites ==> ok
    {
      ok := true;
      if dnsService != "" {
        ok := sys.SetDNS(dnsService, dnsServers);
      }
    }

    method DeleteLists() returns (ok: bool)
      modifies sys`table
      ensures ok && old(Extends(sys.table, base, multiset(dnsBypass) + multiset(hostBypass) + multiset(netBypass))) ==>
                sys.table == base
      ensures sys.deletes && old(Extends(sys.table, base, multiset(dnsBypass) + multiset(hostBypass) + multiset(netBypass))) ==>
                ok
    {
      assert multiset(dnsBypass) + multiset(hostBypass) + multiset(netBypass)
          == multiset(dnsBypass) + (multiset(hostBypass) + multiset(netBypass));
      var a := DeleteAll(dnsBypass, multiset(hostBypass) + multiset(netBypass));
      var b := DeleteAll(hostBypass, multiset(netBypass));
      assert multiset(netBypass) == multiset(netBypass) + multiset{};
      var c := DeleteAll(netBypass, multiset{});
      ok := a && b && c;
      if Extends(sys.table, base, multiset{}) {
        Bare(sys.table, base);
      }
    }

    /** Deletes a list of routes one after another, going on after failures. */
    method DeleteAll(list: seq<Dest>, ghost rest: multiset<Dest>) returns (ok: bool)
      modifies sys`table
      ensures ok && old(Extends(sys.table, base, multiset(list) + rest)) ==> Extends(sys.table, base, rest)
      ensures sys.deletes && old(Extends(sys.table, base, multiset(list) + rest)) ==> ok
    {
      ok := true;
      var i := 0;
      while i < |list|
        invariant 0 <= i <= |list|
        invariant ok && old(Extends(sys.table, base, multiset(list) + rest)) ==>
                    Extends(sys.table, base, multiset(list[i..]) + rest)
        invariant sys.deletes && old(Extends(sys.table, base, multiset(list) + rest)) ==> ok
      {
        assert list[i..] == [list[i]] + list[i + 1..];
        ghost var t, left := sys.table, multiset(list[i..]) + rest;
        assert left - multiset{list[i]} == multiset(list[i + 1..]) + rest;
        if ok && Extends(t, base, left) {
          Shrink(t, base, left, list[i]);
        }
        var done := sys.RouteDelete(list[i]);
        ok := ok && done;
        i := i + 1;
      }
    }

    /** Any number of batches keep an installed configuration as it is otherwise. */
    method AddBatches(batches: seq<seq<Option<Addr>>>)
      requires Active()
      modifies this`hostBypass, this`keys, sys`table
      ensures Active()
    {
      var i := 0;
      while i < |batches|
        invariant Active()
      {
        AddDynamicHostBypassBatch(batches[i]);
        i := i + 1;
      }
    }

    /** Main result: install, any bypass batches, restore. If neither end reports an error, or deleting works,
        the routing table is what it was, whatever the exclusions and batches overlap with. The DNS settings
        are back as well if the original ones were read correctly. */
    method RoundTrip(iface: string, service: string, batches: seq<seq<Option<Addr>>>)
      returns (up: bool, down: bool, ghost known: bool)
      requires Fresh()
      modifies this, sys
      ensures up ==> Fresh() && origGateway != "" && Default in old(sys.table) && old(sys.table)[Default] == Gateway(origGateway)
      ensures up && (down || sys.deletes) ==> sys.table == old(sys.table)
      ensures up && (down || sys.dnsWrites) && known ==> sys.dns == old(sys.dns)
      ensures up && known && sys.deletes && sys.dnsWrites ==> down
      ensures up && sys.dnsReads && (service == "" || service in old(sys.dns)) ==> known
    {
      down, known := false, false;
      up := Install(iface, service, true);
      if up {
        known := DnsKnown();
        AddBatches(batches);
        down := Restore();
      }
    }

    /** While installed, the lookup of every address is the one the split default promises. */
    lemma ActiveLookup(a: Addr)
      requires Active()
      ensures var owned := Side() + Halves(true);
              Lookup(sys.table, a) ==
                if Best(Bypass(sys.table, owned), a) > Best(base, a) then Some(Gateway(origGateway))
                else if Best(base, a) > 0 then Lookup(base, a)
                else Some(Interface(tunName))
    {
      BookedInstalled(sys.table, base, keys, Side(), origGateway, tunName);
      SplitDefault(sys.table, base, Side() + Halves(true), origGateway, tunName, a);
    }

    /** While installed, the endpoint and every recorded host bypass go to the old gateway. */
    lemma ActiveHosts(a: Addr)
      requires Active() && (a == endpoint || Host(a) in dnsBypass || Host(a) in hostBypass)
      ensures Lookup(sys.table, a) == Some(Gateway(origGateway))
    {
      BookedInstalled(sys.table, base, keys, Side(), origGateway, tunName);
      assert Host(a) in Side();
      HostBypassed(sys.table, base, Side() + Halves(true), origGateway, tunName, a);
    }

    /** While installed, any address whose host route was added, such as a public resolver's, goes to the old gateway. */
    lemma ActiveAdded(a: Addr)
      requires Active() && Host(a) in sys.table && Host(a) !in base
      ensures Lookup(sys.table, a) == Some(Gateway(origGateway))
    {
      BookedInstalled(sys.table, base, keys, Side(), origGateway, tunName);
      HostBypassed(sys.table, base, Side() + Halves(true), origGateway, tunName, a);
    }

    /** While installed, an excluded network goes to the old gateway wherever no longer original route covers it. */
    lemma ActiveNets(p: Prefix, a: Addr)
      requires Active() && V4(p) in netBypass && p.Valid() && p.Covers(a)
      requires forall q: Prefix | q.Valid() && V4(q) in base && q.Covers(a) :: q.len <= p.len
      ensures Lookup(sys.table, a) == Some(Gateway(origGateway))
    {
      BookedInstalled(sys.table, base, keys, Side(), origGateway, tunName);
      assert V4(p) in Side();
      assert IsHalf(V4(p)) ==> multiset(keys)[V4(p)] >= 2;
      NetBypassed(sys.table, base, Side() + Halves(true), origGateway, tunName, p, a);
    }

    /** While installed, every other address that fell to the default route goes to the tunnel. */
    lemma ActiveTunneled(a: Addr)
      requires Active()
      requires forall q: Prefix | q.Valid() && V4(q) in base && q.Covers(a) :: q.len == 0
      requires forall q: Prefix | q.Valid() && V4(q) in Side() :: !q.Covers(a)
      ensures Lookup(sys.table, a) == Some(Interface(tunName))
    {
      BookedInstalled(sys.table, base, keys, Side(), origGateway, tunName);
      DefaultTunneled(sys.table, base, Side() + Halves(true), origGateway, tunName, a);
    }

    /** Where adding works, every excluded address goes to the old gateway unless an original route at least as
        long covers it. */
    lemma ActiveExcluded(i: nat, p: Prefix, a: Addr)
      requires Active() && AllHandled() && NoHalf() && i < |exclusions| && Excludes(exclusions[i], p)
      requires p.Valid() && p.Covers(a)
      requires forall q: Prefix | q.Valid() && V4(q) in base && q.Covers(a) :: q.len < p.len
      ensures Lookup(sys.table, a) == Some(Gateway(origGateway))
    {
      BookedInstalled(sys.table, base, keys, Side(), origGateway, tunName);
      assert Handled(exclusions[i], sys.table);
      assert V4(p) in sys.table && V4(p) !in base;
      NetBypassed(sys.table, base, Side() + Halves(true), origGateway, tunName, p, a);
    }

    /** What `Restore` is meant to leave. */
    ghost function Target(): Table
      reads this, sys
    {
      if installed then base else sys.table
    }

    /** Where adding and deleting work, a batch leaves a route that the following `Restore` keeps if and only if
        nothing is installed, the gateway of an earlier installation is remembered, and the batch has an IPv4
        address that is neither recorded nor routed. */
    method BatchThenRestore(ips: seq<Option<Addr>>) returns (ok: bool)
      requires installed ==> Active()
      modifies this, sys
      ensures sys.adds && sys.deletes ==>
                (sys.table != old(Target()) <==>
                   !old(installed) && old(origGateway) != "" && exists d :: IsLate(ips, old(hostBypass), old(sys.table), d))
    {
      AddDynamicHostBypassBatch(ips);
      assert !installed && (forall d :: !IsLate(ips, old(hostBypass), old(sys.table), d)) ==> sys.table == old(sys.table);
      ok := Restore();
    }

    /** So after a complete round trip, one more batch leaves the table changed if and only if it has an IPv4
        address that was not routed before the round trip. */
    method LateBatchStays(iface: string, service: string, batches: seq<seq<Option<Addr>>>, late: seq<Option<Addr>>)
      returns (up: bool, ok: bool)
      requires Fresh()
      modifies this, sys
      ensures up && sys.adds && sys.deletes ==>
                (sys.table != old(sys.table) <==>
                   exists i | 0 <= i < |late| :: late[i].Some? && Host(late[i].value) !in old(sys.table))
    {
      ok := false;
      var down;
      ghost var known;
      up, down, known := RoundTrip(iface, service, batches);
      if up {
        ghost var t, listed := sys.table, hostBypass;
        ok := BatchThenRestore(late);
        forall i | 0 <= i < |late| && late[i].Some? && Host(late[i].value) !in t
          ensures IsLate(late, listed, t, Host(late[i].value))
        {
        }
      }
    }
  }
}
