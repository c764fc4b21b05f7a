/** The editable fields of `vpn.toml` and the patches they turn into. */
module ConfigEdit {
  import opened Tracker
  import opened ConfigText
  import opened ConfigPatch

  /** `None` leaves a field alone. The listen address is given as the quoted text that is written. */
  datatype Edit = Edit(listen: Option<string>, allowPrivate: Option<bool>, ipv6: Option<bool>, cacheTtl: Option<int>,
                       tlsHandshake: Option<int>, connect: Option<int>, tcpIdle: Option<int>, udpIdle: Option<int>)

  const Keys: seq<string> := ["listen_address", "allow_private_network_connections", "ipv6_available", "cache_ttl_secs",
                              "tls_handshake_timeout_secs", "connection_establishment_timeout_secs",
                              "tcp_connections_timeout_secs", "udp_connections_timeout_secs"]

  function Digits(n: nat): (s: string)
    ensures '\n' !in s && s != ""
  {
    var d := [('0' as int + n % 10) as char];
    if n < 10 then d else Digits(n / 10) + d
  }

  function Decimal(n: int): (s: string)
    ensures '\n' !in s
  {
    if n < 0 then "-" + Digits(-n) else Digits(n)
  }

  function BoolText(v: Option<bool>): Option<string> {
    match v case None => None case Some(b) => Some(if b then "true" else "false")
  }

  function IntText(v: Option<int>): Option<string> {
    match v case None => None case Some(n) => Some(Decimal(n))
  }

  function Values(e: Edit): seq<Option<string>> {
    [e.listen, BoolText(e.allowPrivate), BoolText(e.ipv6), IntText(e.cacheTtl), IntText(e.tlsHandshake),
     IntText(e.connect), IntText(e.tcpIdle), IntText(e.udpIdle)]
  }

  function Select(keys: seq<string>, values: seq<Option<string>>): seq<Patch>
    requires |keys| == |values|
  {
    if keys == [] then []
    else (if values[0].Some? then [Patch(keys[0], values[0].value)] else []) + Select(keys[1..], values[1..])
  }

  function PatchesOf(e: Edit): seq<Patch> {
    Select(Keys, Values(e))
  }

  predicate GoodKey(k: string) {
    GoodPatch(Patch(k, ""))
  }

  lemma {:induction false} SelectIn(keys: seq<string>, values: seq<Option<string>>, p: Patch)
    requires |keys| == |values| && p in Select(keys, values)
    ensures exists i | 0 <= i < |keys| :: p.key == keys[i] && values[i] == Some(p.value)
  {
    if !(values[0].Some? && p == Patch(keys[0], values[0].value)) {
      SelectIn(keys[1..], values[1..], p);
      var i :| 0 <= i < |keys| - 1 && p.key == keys[1..][i] && values[1..][i] == Some(p.value);
      assert p.key == keys[i + 1] && values[i + 1] == Some(p.value);
    }
  }

  lemma {:induction false} SelectDistinct(keys: seq<string>, values: seq<Option<string>>)
    requires |keys| == |values| && forall i, j | 0 <= i < j < |keys| :: keys[i] != keys[j]
    ensures forall i, j | 0 <= i < j < |Select(keys, values)| :: Select(keys, values)[i].key != Select(keys, values)[j].key
  {
    if keys != [] {
      SelectDistinct(keys[1..], values[1..]);
      var rest := Select(keys[1..], values[1..]);
      forall j | 0 <= j < |rest| ensures rest[j].key != keys[0] {
        assert rest[j] in rest;
        SelectIn(keys[1..], values[1..], rest[j]);
      }
    }
  }

  predicate Plain(c: char) {
    'a' <= c <= 'z' || '0' <= c <= '9' || c == '_'
  }

  lemma PlainIsGood(k: string)
    requires k != "" && forall i | 0 <= i < |k| :: Plain(k[i])
    ensures GoodKey(k)
  {
  }

  lemma KeysPlain(n: nat)
    requires n < |Keys|
    ensures forall i | 0 <= i < |Keys[n]| :: Plain(Keys[n][i])
  {
    if n == 0 { assert Keys[n] == "listen_address"; }
    else if n == 1 { assert Keys[n] == "allow_private_network_connections"; }
    else if n == 2 { assert Keys[n] == "ipv6_available"; }
    else if n == 3 { assert Keys[n] == "cache_ttl_secs"; }
    else if n == 4 { assert Keys[n] == "tls_handshake_timeout_secs"; }
    else if n == 5 { assert Keys[n] == "connection_establishment_timeout_secs"; }
    else if n == 6 { assert Keys[n] == "tcp_connections_timeout_secs"; }
    else { assert Keys[n] == "udp_connections_timeout_secs"; }
  }

  lemma KeysDistinct()
    ensures forall i, j | 0 <= i < j < |Keys| :: Keys[i] != Keys[j]
  {
    assert Keys[0][0] == 'l' && Keys[1][0] == 'a' && Keys[2][0] == 'i' && Keys[7][0] == 'u';
    assert |Keys[3]| == 14 && |Keys[4]| == 26 && |Keys[5]| == 37 && |Keys[6]| == 28;
    assert Keys[3][0] == 'c' && Keys[4][0] == 't' && Keys[5][0] == 'c' && Keys[6][0] == 't';
  }

  lemma SelectGood(keys: seq<string>, values: seq<Option<string>>)
    requires |keys| == |values| && forall i, j | 0 <= i < j < |keys| :: keys[i] != keys[j]
    requires forall i | 0 <= i < |keys| :: GoodKey(keys[i])
    requires forall i | 0 <= i < |values| && values[i].Some? :: '\n' !in values[i].value
    ensures GoodPatches(Select(keys, values))
  {
    SelectDistinct(keys, values);
    var ps := Select(keys, values);
    forall i | 0 <= i < |ps| ensures GoodPatch(ps[i]) {
      assert ps[i] in ps;
      SelectIn(keys, values, ps[i]);
      var k :| 0 <= k < |keys| && ps[i].key == keys[k] && values[k] == Some(ps[i].value);
      assert GoodKey(keys[k]);
    }
  }

  /** Every edit yields patches the patcher's theorems apply to. */
  lemma EditsAreGood(e: Edit)
    requires e.listen.Some? ==> '\n' !in e.listen.value
    ensures GoodPatches(PatchesOf(e))
  {
    KeysDistinct();
    forall i | 0 <= i < |Keys| ensures GoodKey(Keys[i]) {
      KeysPlain(i);
      PlainIsGood(Keys[i]);
    }
    SelectGood(Keys, Values(e));
  }
}
