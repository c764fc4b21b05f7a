/** Which key each edited field sets, to which value, and what that does to the file. */
module ConfigFields {
  import opened Tracker
  import opened ConfigText
  import opened ConfigPatch
  import opened ConfigMeaning
  import opened ConfigEdit

  // ---------------------------------------------------------------- reading values

  predicate IsDecimal(s: string) {
    s != "" && forall i | 0 <= i < |s| :: '0' <= s[i] <= '9'
  }

  /** The number a string of decimal digits denotes, most significant digit first. */
  function ReadDigits(s: string): int
    requires forall i | 0 <= i < |s| :: '0' <= s[i] <= '9'
  {
    if s == "" then 0 else 10 * ReadDigits(s[..|s| - 1]) + (s[|s| - 1] as int - '0' as int)
  }

  function ReadInt(s: string): Option<int> {
    if IsDecimal(s) then Some(ReadDigits(s))
    else if s != "" && s[0] == '-' && IsDecimal(s[1..]) then Some(-ReadDigits(s[1..]))
    else None
  }

  function ReadBool(s: string): Option<bool> {
    if s == "true" then Some(true) else if s == "false" then Some(false) else None
  }

  lemma {:induction false} DigitsRead(n: nat)
    ensures IsDecimal(Digits(n)) && ReadDigits(Digits(n)) == n
  {
    var s := Digits(n);
    if n >= 10 {
      DigitsRead(n / 10);
      assert s[..|s| - 1] == Digits(n / 10);
    } else {
      assert s[..|s| - 1] == "";
    }
  }

  /** A written integer reads back, negative ones included. */
  lemma DecimalReads(n: int)
    ensures ReadInt(Decimal(n)) == Some(n)
  {
    if n < 0 {
      DigitsRead(-n);
      assert Decimal(n)[1..] == Digits(-n);
    } else {
      DigitsRead(n);
    }
  }

  // ---------------------------------------------------------------- one patch per edited field

  lemma {:induction false} SelectHas(keys: seq<string>, values: seq<Option<string>>, i: nat)
    requires |keys| == |values| && i < |keys| && values[i].Some?
    ensures Patch(keys[i], values[i].value) in Select(keys, values)
  {
    if i > 0 {
      SelectHas(keys[1..], values[1..], i - 1);
    }
  }

  /** The patches set a key exactly when its field has a value, and to that value. */
  lemma SelectFinds(keys: seq<string>, values: seq<Option<string>>, i: nat)
    requires |keys| == |values| && i < |keys| && GoodPatches(Select(keys, values))
    requires forall i, j | 0 <= i < j < |keys| :: keys[i] != keys[j]
    ensures Find(Select(keys, values), keys[i]) == if values[i].Some? then Some(Patch(keys[i], values[i].value)) else None
  {
    var ps := Select(keys, values);
    if values[i].Some? {
      SelectHas(keys, values, i);
      FindUnique(ps, Patch(keys[i], values[i].value));
    } else if Find(ps, keys[i]).Some? {
      var p := Find(ps, keys[i]).value;
      SelectIn(keys, values, p);
      assert false;
    }
  }

  /** `key` is patched if and only if the field has a value, and its text reads as that value. */
  predicate SetsInt(ps: seq<Patch>, key: string, v: Option<int>) {
    match Find(ps, key)
    case None => v.None?
    case Some(p) => v.Some? && ReadInt(p.value) == v
  }

  predicate SetsBool(ps: seq<Patch>, key: string, v: Option<bool>) {
    match Find(ps, key)
    case None => v.None?
    case Some(p) => v.Some? && ReadBool(p.value) == v
  }

  predicate SetsText(ps: seq<Patch>, key: string, v: Option<string>) {
    match Find(ps, key)
    case None => v.None?
    case Some(p) => v == Some(p.value)
  }

  lemma IntField(e: Edit, i: nat, v: Option<int>)
    requires (e.listen.Some? ==> '\n' !in e.listen.value) && i < |Keys| && Values(e)[i] == IntText(v)
    ensures SetsInt(PatchesOf(e), Keys[i], v)
  {
    EditsAreGood(e);
    KeysDistinct();
    SelectFinds(Keys, Values(e), i);
    if v.Some? {
      DecimalReads(v.value);
    }
  }

  lemma BoolField(e: Edit, i: nat, v: Option<bool>)
    requires (e.listen.Some? ==> '\n' !in e.listen.value) && i < |Keys| && Values(e)[i] == BoolText(v)
    ensures SetsBool(PatchesOf(e), Keys[i], v)
  {
    EditsAreGood(e);
    KeysDistinct();
    SelectFinds(Keys, Values(e), i);
  }

  lemma TextField(e: Edit)
    requires e.listen.Some? ==> '\n' !in e.listen.value
    ensures SetsText(PatchesOf(e), Keys[0], e.listen)
  {
    EditsAreGood(e);
    KeysDistinct();
    SelectFinds(Keys, Values(e), 0);
  }

  /** Main result: each of the eight fields sets its own key, and only when it has a value. */
  lemma FieldsSet(e: Edit)
    requires e.listen.Some? ==> '\n' !in e.listen.value
    ensures var ps := PatchesOf(e);
            && SetsText(ps, "listen_address", e.listen)
            && SetsBool(ps, "allow_private_network_connections", e.allowPrivate)
            && SetsBool(ps, "ipv6_available", e.ipv6)
            && SetsInt(ps, "cache_ttl_secs", e.cacheTtl)
            && SetsInt(ps, "tls_handshake_timeout_secs", e.tlsHandshake)
            && SetsInt(ps, "connection_establishment_timeout_secs", e.connect)
            && SetsInt(ps, "tcp_connections_timeout_secs", e.tcpIdle)
            && SetsInt(ps, "udp_connections_timeout_secs", e.udpIdle)
  {
    SettingsSet(e);
    TimeoutsSet(e);
  }

  lemma SettingsSet(e: Edit)
    requires e.listen.Some? ==> '\n' !in e.listen.value
    ensures var ps := PatchesOf(e);
            && SetsText(ps, "listen_address", e.listen)
            && SetsBool(ps, "allow_private_network_connections", e.allowPrivate)
            && SetsBool(ps, "ipv6_available", e.ipv6)
            && SetsInt(ps, "cache_ttl_secs", e.cacheTtl)
  {
    TextField(e);
    BoolField(e, 1, e.allowPrivate);
    BoolField(e, 2, e.ipv6);
    IntField(e, 3, e.cacheTtl);
  }

  lemma TimeoutsSet(e: Edit)
    requires e.listen.Some? ==> '\n' !in e.listen.value
    ensures var ps := PatchesOf(e);
            && SetsInt(ps, "tls_handshake_timeout_secs", e.tlsHandshake)
            && SetsInt(ps, "connection_establishment_timeout_secs", e.connect)
            && SetsInt(ps, "tcp_connections_timeout_secs", e.tcpIdle)
            && SetsInt(ps, "udp_connections_timeout_secs", e.udpIdle)
  {
    IntField(e, 4, e.tlsHandshake);
    IntField(e, 5, e.connect);
    IntField(e, 6, e.tcpIdle);
    IntField(e, 7, e.udpIdle);
  }

  /** And no other key is patched. */
  lemma OnlyFields(e: Edit, p: Patch)
    requires p in PatchesOf(e)
    ensures p.key in Keys
  {
    SelectIn(Keys, Values(e), p);
  }

  // ---------------------------------------------------------------- the edited file

  /** At top level `key` is assigned, by lines with one and the same text, which reads as `v`. */
  ghost predicate HasInt(lines: seq<string>, key: string, v: int) {
    exists text :: SetTo(lines, key, key + " = " + text) && ReadInt(text) == Some(v)
  }

  ghost predicate HasBool(lines: seq<string>, key: string, v: bool) {
    exists text :: SetTo(lines, key, key + " = " + text) && ReadBool(text) == Some(v)
  }

  /** The top-level lines that assign `key` are the same lines, in the same places. */
  ghost predicate Untouched(lines: seq<string>, out: seq<string>, key: string) {
    && FirstSection(lines) <= FirstSection(out)
    && (forall i | 0 <= i < FirstSection(lines) :: KeyOf(lines[i]) == Some(key) ==> out[i] == lines[i])
    && (forall i | 0 <= i < FirstSection(out) :: KeyOf(out[i]) == Some(key) ==> i < FirstSection(lines) && out[i] == lines[i])
  }

  lemma UnpatchedUntouched(lines: seq<string>, ps: seq<Patch>, key: string)
    requires GoodPatches(ps) && !Clobbers(lines, ps) && Find(ps, key).None?
    ensures Untouched(lines, Actual(lines, ps), key)
  {
    LinesKept(lines, ps);
    EmptyLine();
    var n, out := FirstSection(lines), Actual(lines, ps);
    forall i | 0 <= i < FirstSection(out) && KeyOf(out[i]) == Some(key) ensures i < n && out[i] == lines[i] {
      if i < n {
        KeptUnpatched(lines[i], out[i], ps, key);
      } else {
        NewUnpatched(out[i], lines[..n], ps, key);
      }
    }
    forall i | 0 <= i < n && KeyOf(lines[i]) == Some(key) ensures out[i] == lines[i] {
      assert KeptLine(lines[i], out[i], ps);
    }
  }

  lemma KeptUnpatched(ln: string, x: string, ps: seq<Patch>, key: string)
    requires GoodPatches(ps) && Find(ps, key).None? && KeptLine(ln, x, ps) && KeyOf(x) == Some(key)
    ensures x == ln
  {
    if p :| p in ps && KeyOf(ln) == Some(p.key) && x == Line(p) {
      LineReadsBack(p);
    }
  }

  lemma NewUnpatched(x: string, top: seq<string>, ps: seq<Patch>, key: string)
    requires GoodPatches(ps) && Find(ps, key).None? && NewLine(x, top, ps)
    ensures KeyOf(x) != Some(key)
  {
    EmptyLine();
    if p :| p in ps && !Assigned(top, p.key) && x == Line(p) {
      LineReadsBack(p);
    }
  }

  /** What one integer field does to the file: with a value the key has it, without one the key is left alone. */
  ghost predicate FieldInt(lines: seq<string>, out: seq<string>, key: string, v: Option<int>) {
    if v.Some? then HasInt(out, key, v.value) else Untouched(lines, out, key)
  }

  ghost predicate FieldBool(lines: seq<string>, out: seq<string>, key: string, v: Option<bool>) {
    if v.Some? then HasBool(out, key, v.value) else Untouched(lines, out, key)
  }

  lemma IntTakes(lines: seq<string>, ps: seq<Patch>, key: string, v: Option<int>)
    requires GoodPatches(ps) && !Clobbers(lines, ps) && SetsInt(ps, key, v)
    ensures FieldInt(lines, Actual(lines, ps), key, v)
  {
    if v.Some? {
      var p := Find(ps, key).value;
      PatchedKeysSet(lines, ps, p);
      assert SetTo(Actual(lines, ps), key, key + " = " + p.value);
    } else {
      UnpatchedUntouched(lines, ps, key);
    }
  }

  lemma BoolTakes(lines: seq<string>, ps: seq<Patch>, key: string, v: Option<bool>)
    requires GoodPatches(ps) && !Clobbers(lines, ps) && SetsBool(ps, key, v)
    ensures FieldBool(lines, Actual(lines, ps), key, v)
  {
    if v.Some? {
      var p := Find(ps, key).value;
      PatchedKeysSet(lines, ps, p);
      assert SetTo(Actual(lines, ps), key, key + " = " + p.value);
    } else {
      UnpatchedUntouched(lines, ps, key);
    }
  }

  lemma TextTakes(lines: seq<string>, ps: seq<Patch>, key: string, v: Option<string>)
    requires GoodPatches(ps) && !Clobbers(lines, ps) && SetsText(ps, key, v)
    ensures if v.Some? then SetTo(Actual(lines, ps), key, key + " = " + v.value) else Untouched(lines, Actual(lines, ps), key)
  {
    if v.Some? {
      PatchedKeysSet(lines, ps, Find(ps, key).value);
    } else {
      UnpatchedUntouched(lines, ps, key);
    }
  }

  /** Main result: outside the family that loses its header, the edited file has the value of every edited field
      under that field's key, and the keys of the other fields are as they were. */
  lemma EditTakesEffect(lines: seq<string>, e: Edit)
    requires (e.listen.Some? ==> '\n' !in e.listen.value) && !Clobbers(lines, PatchesOf(e))
    ensures var out := Actual(lines, PatchesOf(e));
            && (if e.listen.Some? then SetTo(out, "listen_address", "listen_address" + " = " + e.listen.value)
                else Untouched(lines, out, "listen_address"))
            && FieldBool(lines, out, "allow_private_network_connections", e.allowPrivate)
            && FieldBool(lines, out, "ipv6_available", e.ipv6)
            && FieldInt(lines, out, "cache_ttl_secs", e.cacheTtl)
            && FieldInt(lines, out, "tls_handshake_timeout_secs", e.tlsHandshake)
            && FieldInt(lines, out, "connection_establishment_timeout_secs", e.connect)
            && FieldInt(lines, out, "tcp_connections_timeout_secs", e.tcpIdle)
            && FieldInt(lines, out, "udp_connections_timeout_secs", e.udpIdle)
  {
    var ps := PatchesOf(e);
    EditsAreGood(e);
    FieldsSet(e);
    TextTakes(lines, ps, "listen_address", e.listen);
    BoolTakes(lines, ps, "allow_private_network_connections", e.allowPrivate);
    BoolTakes(lines, ps, "ipv6_available", e.ipv6);
    IntTakes(lines, ps, "cache_ttl_secs", e.cacheTtl);
    IntTakes(lines, ps, "tls_handshake_timeout_secs", e.tlsHandshake);
    IntTakes(lines, ps, "connection_establishment_timeout_secs", e.connect);
    IntTakes(lines, ps, "tcp_connections_timeout_secs", e.tcpIdle);
    IntTakes(lines, ps, "udp_connections_timeout_secs", e.udpIdle);
  }
}
