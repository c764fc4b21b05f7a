/** The rules engine: ordered rules over client address and TLS client random, compiled from text. */
module Rules {
  import opened Tracker
  import opened Credentials

  /** A byte as its two hexadecimal digits; masking works digit by digit. */
  datatype Byte = Byte(hi: bv4, lo: bv4) {
    function And(m: Byte): Byte {
      Byte(hi & m.hi, lo & m.lo)
    }
  }

  type Ip = string

  /** CIDR parsing and matching, which belong to the network library. */
  datatype Env = Env(valid: string -> bool, covers: (string, Ip) -> bool)

  datatype RuleView = RuleView(cidr: string, random: string, action: string)

  datatype Rule = Rule(network: Option<string>, prefix: Option<seq<Byte>>, mask: Option<seq<Byte>>, allow: bool)

  datatype Fault = BadCidr | BadHex | LengthMismatch | BadAction
  datatype Compiled = Ok(r: Rule) | Bad(f: Fault)

  predicate IsDigit(c: char) {
    '0' <= c <= '9' || 'a' <= c <= 'f' || 'A' <= c <= 'F'
  }

  /** Each digit is worth one more than the one before it. */
  function ValueOf(c: char): bv4
    requires IsDigit(c)
    decreases c as int
  {
    if c == '0' then 0
    else if c == 'a' || c == 'A' then 10
    else ValueOf((c as int - 1) as char) + 1
  }

  function DigitOf(c: char): Option<bv4> {
    if IsDigit(c) then Some(ValueOf(c)) else None
  }

  /** What every digit is worth; letter case does not matter. */
  lemma DigitValues()
    ensures ValueOf('0') == 0 && ValueOf('1') == 1 && ValueOf('2') == 2 && ValueOf('3') == 3 && ValueOf('4') == 4
    ensures ValueOf('5') == 5 && ValueOf('6') == 6 && ValueOf('7') == 7 && ValueOf('8') == 8 && ValueOf('9') == 9
    ensures ValueOf('a') == 10 && ValueOf('b') == 11 && ValueOf('c') == 12
    ensures ValueOf('d') == 13 && ValueOf('e') == 14 && ValueOf('f') == 15
    ensures ValueOf('A') == 10 && ValueOf('B') == 11 && ValueOf('C') == 12
    ensures ValueOf('D') == 13 && ValueOf('E') == 14 && ValueOf('F') == 15
  {
    LowDigits();
    assert ValueOf('b') == 11;
    assert ValueOf('d') == 13;
    assert ValueOf('B') == 11;
    assert ValueOf('D') == 13;
  }

  lemma LowDigits()
    ensures ValueOf('0') == 0 && ValueOf('1') == 1 && ValueOf('2') == 2 && ValueOf('3') == 3 && ValueOf('4') == 4
    ensures ValueOf('5') == 5 && ValueOf('6') == 6 && ValueOf('7') == 7 && ValueOf('8') == 8 && ValueOf('9') == 9
  {
    assert ValueOf('1') == 1;
    assert ValueOf('3') == 3;
    assert ValueOf('5') == 5;
    assert ValueOf('7') == 7;
    assert ValueOf('9') == 9;
  }

  /** Only pairs of hexadecimal digits decode. */
  predicate IsHex(s: string) {
    |s| % 2 == 0 && forall i | 0 <= i < |s| :: DigitOf(s[i]).Some?
  }

  /** The i-th hexadecimal digit of a byte string. */
  function Digit(s: seq<Byte>, i: nat): bv4
    requires i < 2 * |s|
  {
    if i % 2 == 0 then s[i / 2].hi else s[i / 2].lo
  }

  lemma DigitOfRest(b: Byte, rest: seq<Byte>, i: nat)
    requires i < 2 * |rest|
    ensures Digit([b] + rest, i + 2) == Digit(rest, i)
  {
    assert (i + 2) / 2 == i / 2 + 1;
  }

  /** Decoding keeps every digit in its place. */
  function DecodeHex(s: string): (r: Option<seq<Byte>>)
    ensures r.Some? <==> IsHex(s)
    ensures r.Some? ==> |s| == 2 * |r.value| && forall i | 0 <= i < |s| :: Digit(r.value, i) == DigitOf(s[i]).value
  {
    if s == [] then Some([])
    else if |s| == 1 then None
    else
      var rest := DecodeHex(s[2..]);
      assert forall i | 2 <= i < |s| :: s[2..][i - 2] == s[i];
      if DigitOf(s[0]).None? || DigitOf(s[1]).None? || rest.None? then
        assert IsHex(s) ==> IsHex(s[2..]);
        None
      else
        var b := Byte(DigitOf(s[0]).value, DigitOf(s[1]).value);
        assert forall i | 2 <= i < |s| :: Digit([b] + rest.value, i) == DigitOf(s[i]).value by {
          forall i | 2 <= i < |s| ensures Digit([b] + rest.value, i) == DigitOf(s[i]).value {
            DigitOfRest(b, rest.value, i - 2);
          }
        }
        Some([b] + rest.value)
  }

  function CompileRandom(s: string): Option<(seq<Byte>, Option<seq<Byte>>)> {
    var n := Upto(s, '/');
    if n < |s| then
      var p, m := DecodeHex(s[..n]), DecodeHex(s[n + 1..]);
      if p.Some? && m.Some? && |p.value| == |m.value| then Some((p.value, m)) else None
    else
      var p := DecodeHex(s);
      if p.Some? then Some((p.value, None)) else None
  }

  function RandomFault(s: string): Fault {
    var n := Upto(s, '/');
    if n < |s| && DecodeHex(s[..n]).Some? && DecodeHex(s[n + 1..]).Some? then LengthMismatch else BadHex
  }

  /** Checks in the order of the original: address range, random, action. */
  function Compile(env: Env, v: RuleView): Compiled {
    if v.cidr != "" && !env.valid(v.cidr) then Bad(BadCidr)
    else if v.random != "" && CompileRandom(v.random).None? then Bad(RandomFault(v.random))
    else if v.action != "allow" && v.action != "deny" then Bad(BadAction)
    else
      Ok(Rule(if v.cidr == "" then None else Some(v.cidr),
              if v.random == "" then None else Some(CompileRandom(v.random).value.0),
              if v.random == "" then None else CompileRandom(v.random).value.1,
              v.action == "allow"))
  }

  predicate MatchIP(env: Env, r: Rule, ip: Ip) {
    r.network.Some? ==> env.covers(r.network.value, ip)
  }

  predicate RuleOk(r: Rule) {
    r.prefix.Some? && r.mask.Some? ==> |r.prefix.value| == |r.mask.value|
  }

  predicate MaskedMatch(p: seq<Byte>, m: seq<Byte>, random: seq<Byte>)
    requires |p| == |m| && |p| <= |random|
  {
    forall i | 0 <= i < |p| :: random[i].And(m[i]) == p[i].And(m[i])
  }

  predicate MatchRandom(r: Rule, random: seq<Byte>)
    requires RuleOk(r)
  {
    r.prefix.Some? ==>
      && |random| >= |r.prefix.value|
      && if r.mask.None? then random[..|r.prefix.value|] == r.prefix.value
         else MaskedMatch(r.prefix.value, r.mask.value, random)
  }

  predicate Matches(env: Env, r: Rule, ip: Ip, random: seq<Byte>)
    requires RuleOk(r)
  {
    MatchIP(env, r, ip) && MatchRandom(r, random)
  }

  /** First match decides; no match allows. */
  function Verdict(env: Env, rules: seq<Rule>, ip: Ip, random: seq<Byte>): bool
    requires forall r | r in rules :: RuleOk(r)
  {
    if rules == [] then true
    else if Matches(env, rules[0], ip, random) then rules[0].allow
    else Verdict(env, rules[1..], ip, random)
  }

  /** `rules` are the compiled forms of `views`, one by one. */
  ghost predicate CompiledTo(env: Env, views: seq<RuleView>, rules: seq<Rule>) {
    |rules| == |views| && forall i | 0 <= i < |views| :: Compile(env, views[i]) == Ok(rules[i])
  }

  lemma CompiledOneMore(env: Env, views: seq<RuleView>, rules: seq<Rule>, v: RuleView, r: Rule)
    requires CompiledTo(env, views, rules) && Compile(env, v) == Ok(r)
    ensures CompiledTo(env, views + [v], rules + [r])
  {
  }

  // ---------------------------------------------------------------- which texts are rules

  ghost predicate HexPair(s: string, p: string, m: string) {
    s == p + "/" + m && IsHex(p) && IsHex(m)
  }

  ghost predicate Masked(s: string, p: string, m: string) {
    HexPair(s, p, m) && |p| == |m|
  }

  /** A prefix, or a prefix and a mask of the same length after a slash. */
  ghost predicate PatternText(s: string) {
    IsHex(s) || exists p, m :: Masked(s, p, m)
  }

  ghost predicate GoodView(env: Env, v: RuleView) {
    && (v.cidr == "" || env.valid(v.cidr))
    && (v.random == "" || PatternText(v.random))
    && (v.action == "allow" || v.action == "deny")
  }

  ghost predicate IsFirstBad(env: Env, views: seq<RuleView>, i: nat) {
    i < |views| && !GoodView(env, views[i]) && forall j | 0 <= j < i :: GoodView(env, views[j])
  }

  lemma DigitTexts(c: char)
    ensures IsDigit(c) <==> c in "0123456789abcdefABCDEF"
  {
    var t := "0123456789abcdefABCDEF";
    if '0' <= c <= '9' {
      assert t[c as int - '0' as int] == c;
    } else if 'a' <= c <= 'f' {
      assert t[c as int - 'a' as int + 10] == c;
    } else if 'A' <= c <= 'F' {
      assert t[c as int - 'A' as int + 16] == c;
    }
  }

  /** What decodes is pairs of hexadecimal digits, in either letter case, and nothing else. */
  lemma HexIs(s: string)
    ensures IsHex(s) <==> |s| % 2 == 0 && forall i | 0 <= i < |s| :: s[i] in "0123456789abcdefABCDEF"
  {
    forall i | 0 <= i < |s| ensures DigitOf(s[i]).Some? <==> s[i] in "0123456789abcdefABCDEF" {
      DigitTexts(s[i]);
    }
  }

  lemma HexHasNoSlash(s: string)
    requires IsHex(s)
    ensures '/' !in s
  {
  }

  lemma PairParts(s: string, p: string, m: string)
    requires HexPair(s, p, m)
    ensures Upto(s, '/') == |p| < |s| && s[..|p|] == p && s[|p| + 1..] == m
  {
    HexHasNoSlash(p);
    UptoPrefix(p, '/', m);
  }

  lemma PairIff(s: string, n: nat)
    requires n == Upto(s, '/') < |s|
    ensures HexPair(s, s[..n], s[n + 1..]) <==> IsHex(s[..n]) && IsHex(s[n + 1..])
  {
    assert s == s[..n] + "/" + s[n + 1..];
  }

  lemma SlashIsNotHex(s: string)
    requires Upto(s, '/') < |s|
    ensures !IsHex(s)
  {
    assert DigitOf(s[Upto(s, '/')]).None?;
  }

  lemma MaskedParts(s: string, p: string, m: string)
    requires Masked(s, p, m)
    ensures var n := Upto(s, '/'); n < |s| && Masked(s, s[..n], s[n + 1..])
  {
    PairParts(s, p, m);
  }

  lemma MaskedIff(s: string, n: nat)
    requires n == Upto(s, '/') < |s|
    ensures PatternText(s) <==> Masked(s, s[..n], s[n + 1..])
  {
    SlashIsNotHex(s);
    if p, m :| Masked(s, p, m) {
      MaskedParts(s, p, m);
    }
  }

  lemma PlainIff(s: string)
    requires Upto(s, '/') == |s|
    ensures PatternText(s) <==> IsHex(s)
  {
    if p, m :| Masked(s, p, m) {
      PairParts(s, p, m);
      assert false;
    }
  }

  /** A random compiles if and only if its text is a pattern. */
  lemma RandomCompilesIff(s: string)
    ensures CompileRandom(s).Some? <==> PatternText(s)
  {
    var n := Upto(s, '/');
    if n < |s| {
      MaskedIff(s, n);
      PairIff(s, n);
    } else {
      PlainIff(s);
    }
  }

  /** A rule compiles if and only if its range is empty or valid, its random is empty or a pattern, and its action
      is one of the two. */
  lemma CompilesIff(env: Env, v: RuleView)
    ensures Compile(env, v).Ok? <==> GoodView(env, v)
  {
    RandomCompilesIff(v.random);
  }

  /** Unequal lengths are reported exactly for two hexadecimal texts. */
  lemma RandomFaultIff(s: string)
    ensures RandomFault(s) == LengthMismatch <==> exists p, m :: HexPair(s, p, m)
  {
    var n := Upto(s, '/');
    if n < |s| {
      PairIff(s, n);
    }
    if p, m :| HexPair(s, p, m) {
      PairParts(s, p, m);
    }
  }

  /** What is reported: the range before the random before the action, and unequal lengths apart from bad digits. */
  lemma FaultIs(env: Env, v: RuleView)
    requires Compile(env, v).Bad?
    ensures Compile(env, v).f ==
              if v.cidr != "" && !env.valid(v.cidr) then BadCidr
              else if v.random == "" || PatternText(v.random) then BadAction
              else if exists p, m :: HexPair(v.random, p, m) then LengthMismatch
              else BadHex
  {
    RandomCompilesIff(v.random);
    RandomFaultIff(v.random);
  }

  datatype SetResult = Done | BadRule(index: nat) | SaveFailed

  class Engine {
    const env: Env
    const path: string
    var rules: seq<Rule>

    predicate Valid()
      reads this
    {
      forall r | r in rules :: RuleOk(r)
    }

    constructor (env: Env, path: string)
      ensures Valid() && rules == [] && this.env == env && this.path == path
    {
      this.env, this.path, rules := env, path, [];
    }

    /** Replaces all rules or, when one is malformed, none, and names the first such; saving comes after replacing. */
    method Set(views: seq<RuleView>, saves: bool) returns (r: SetResult)
      requires Valid()
      modifies this
      ensures Valid()
      ensures r.BadRule? <==> exists i | 0 <= i < |views| :: !GoodView(env, views[i])
      ensures r.BadRule? ==> rules == old(rules) && IsFirstBad(env, views, r.index)
      ensures !r.BadRule? ==> CompiledTo(env, views, rules) && r == if path == "" || saves then Done else SaveFailed
    {
      var compiled: seq<Rule> := [];
      var i := 0;
      while i < |views|
        invariant 0 <= i <= |views| && rules == old(rules)
        invariant CompiledTo(env, views[..i], compiled) && forall x | x in compiled :: RuleOk(x)
        invariant forall j | 0 <= j < i :: GoodView(env, views[j])
      {
        var c := Compile(env, views[i]);
        CompilesIff(env, views[i]);
        if c.Bad? {
          return BadRule(i);
        }
        CompileOk(env, views[i]);
        CompiledOneMore(env, views[..i], compiled, views[i], c.r);
        assert views[..i + 1] == views[..i] + [views[i]];
        compiled := compiled + [c.r];
        i := i + 1;
      }
      assert views[..i] == views;
      rules := compiled;
      r := if path == "" || saves then Done else SaveFailed;
    }

    method Allow(ip: Ip, random: seq<Byte>) returns (ok: bool)
      requires Valid()
      ensures ok == Verdict(env, rules, ip, random)
    {
      var i := 0;
      while i < |rules|
        invariant 0 <= i <= |rules|
        invariant Verdict(env, rules, ip, random) == Verdict(env, rules[i..], ip, random)
      {
        if Matches(env, rules[i], ip, random) {
          return rules[i].allow;
        }
        assert rules[i..][1..] == rules[i + 1..];
        i := i + 1;
      }
      ok := true;
    }

    /** A set of good rules decides from then on by its texts; a rejected one changes no verdict. */
    method VerdictAfterSet(views: seq<RuleView>, saves: bool, ip: Ip, random: seq<Byte>) returns (r: SetResult, ok: bool)
      requires Valid()
      modifies this
      ensures (forall i | 0 <= i < |views| :: GoodView(env, views[i])) ==> ok == TextVerdict(env, views, ip, random)
      ensures (exists i | 0 <= i < |views| :: !GoodView(env, views[i])) ==> ok == Verdict(env, old(rules), ip, random)
    {
      r := Set(views, saves);
      ok := Allow(ip, random);
      if !r.BadRule? {
        VerdictOverTexts(env, views, rules, ip, random);
      }
    }
  }

  // ---------------------------------------------------------------- what the texts mean

  /** Digit `i` of a pattern that ends, or is cut by its slash, at `n`. */
  predicate DigitMatches(s: string, n: nat, random: seq<Byte>, i: nat)
    requires i < n <= |s| && n <= 2 * |random|
  {
    && DigitOf(s[i]).Some?
    && if n == |s| then Digit(random, i) == DigitOf(s[i]).value
       else n + 1 + i < |s| && DigitOf(s[n + 1 + i]).Some?
            && Digit(random, i) & DigitOf(s[n + 1 + i]).value == DigitOf(s[i]).value & DigitOf(s[n + 1 + i]).value
  }

  /** Reference meaning of a random pattern: its digits, masked if a mask is given, are the first digits. */
  predicate TextMatches(s: string, random: seq<Byte>) {
    var n := Upto(s, '/');
    n <= 2 * |random| && forall i | 0 <= i < n :: DigitMatches(s, n, random, i)
  }

  predicate ViewMatches(env: Env, v: RuleView, ip: Ip, random: seq<Byte>) {
    (v.cidr == "" || env.covers(v.cidr, ip)) && (v.random == "" || TextMatches(v.random, random))
  }

  /** First matching text decides; no match allows. */
  function TextVerdict(env: Env, views: seq<RuleView>, ip: Ip, random: seq<Byte>): bool {
    if views == [] then true
    else if ViewMatches(env, views[0], ip, random) then views[0].action == "allow"
    else TextVerdict(env, views[1..], ip, random)
  }

  /** A byte string is a prefix when its digits are. */
  lemma PrefixByDigits(p: seq<Byte>, random: seq<Byte>)
    requires |p| <= |random|
    ensures random[..|p|] == p <==> forall i | 0 <= i < 2 * |p| :: Digit(random, i) == Digit(p, i)
  {
    if forall i | 0 <= i < 2 * |p| :: Digit(random, i) == Digit(p, i) {
      forall j | 0 <= j < |p| ensures random[j] == p[j] {
        assert Digit(random, 2 * j) == Digit(p, 2 * j);
        assert Digit(random, 2 * j + 1) == Digit(p, 2 * j + 1);
      }
    }
    if random[..|p|] == p {
      forall i | 0 <= i < 2 * |p| ensures Digit(random, i) == Digit(p, i) {
        assert random[..|p|][i / 2] == random[i / 2];
      }
    }
  }

  predicate MaskedDigit(p: seq<Byte>, m: seq<Byte>, random: seq<Byte>, i: nat)
    requires |p| == |m| && |p| <= |random| && i < 2 * |p|
  {
    Digit(random, i) & Digit(m, i) == Digit(p, i) & Digit(m, i)
  }

  /** A byte matches under its mask when both its digits do. */
  lemma MaskedByte(p: seq<Byte>, m: seq<Byte>, random: seq<Byte>, j: nat)
    requires |p| == |m| && |p| <= |random| && j < |p|
    ensures random[j].And(m[j]) == p[j].And(m[j]) <==> MaskedDigit(p, m, random, 2 * j) && MaskedDigit(p, m, random, 2 * j + 1)
  {
    assert (2 * j) / 2 == j && (2 * j + 1) / 2 == j && (2 * j) % 2 == 0 && (2 * j + 1) % 2 == 1;
  }

  lemma MaskByDigits(p: seq<Byte>, m: seq<Byte>, random: seq<Byte>)
    requires |p| == |m| && |p| <= |random|
    ensures MaskedMatch(p, m, random) <==> forall i | 0 <= i < 2 * |p| :: MaskedDigit(p, m, random, i)
  {
    if forall i | 0 <= i < 2 * |p| :: MaskedDigit(p, m, random, i) {
      forall j | 0 <= j < |p| ensures random[j].And(m[j]) == p[j].And(m[j]) {
        MaskedByte(p, m, random, j);
      }
    }
    if MaskedMatch(p, m, random) {
      forall i | 0 <= i < 2 * |p| ensures MaskedDigit(p, m, random, i) {
        var j := i / 2;
        MaskedByte(p, m, random, j);
        assert i == 2 * j || i == 2 * j + 1;
      }
    }
  }

  lemma PlainMeans(s: string, random: seq<Byte>)
    requires IsHex(s) && Upto(s, '/') == |s|
    ensures var p := DecodeHex(s).value;
            (|random| >= |p| && random[..|p|] == p) <==> TextMatches(s, random)
  {
    var p := DecodeHex(s).value;
    if |random| >= |p| {
      PrefixByDigits(p, random);
      forall i | 0 <= i < |s| ensures DigitMatches(s, |s|, random, i) <==> Digit(random, i) == Digit(p, i) {
      }
    }
  }

  lemma MaskedMeans(s: string, n: nat, random: seq<Byte>)
    requires n == Upto(s, '/') < |s| && IsHex(s[..n]) && IsHex(s[n + 1..]) && n == |s[n + 1..]|
    ensures var p, m := DecodeHex(s[..n]).value, DecodeHex(s[n + 1..]).value;
            |p| == |m| && ((|random| >= |p| && MaskedMatch(p, m, random)) <==> TextMatches(s, random))
  {
    var p, m := DecodeHex(s[..n]).value, DecodeHex(s[n + 1..]).value;
    if |random| >= |p| {
      MaskByDigits(p, m, random);
      forall i | 0 <= i < n ensures DigitMatches(s, n, random, i) <==> MaskedDigit(p, m, random, i) {
        assert s[..n][i] == s[i] && s[n + 1..][i] == s[n + 1 + i];
      }
    }
  }

  /** A compiled random pattern matches exactly what its text means. */
  lemma RandomMeans(s: string, r: Rule, random: seq<Byte>)
    requires CompileRandom(s).Some? && r.prefix == Some(CompileRandom(s).value.0) && r.mask == CompileRandom(s).value.1
    ensures RuleOk(r) && (MatchRandom(r, random) <==> TextMatches(s, random))
  {
    var n := Upto(s, '/');
    if n < |s| {
      MaskedMeans(s, n, random);
    } else {
      PlainMeans(s, random);
    }
  }

  lemma CompileOk(env: Env, v: RuleView)
    requires Compile(env, v).Ok?
    ensures RuleOk(Compile(env, v).r)
  {
  }

  /** A compiled rule matches exactly what its text means. */
  lemma CompiledMeans(env: Env, v: RuleView, ip: Ip, random: seq<Byte>)
    requires Compile(env, v).Ok?
    ensures RuleOk(Compile(env, v).r)
    ensures Matches(env, Compile(env, v).r, ip, random) <==> ViewMatches(env, v, ip, random)
  {
    if v.random != "" {
      RandomMeans(v.random, Compile(env, v).r, random);
    }
  }

  /** Main result: the verdict of compiled rules is first-match-else-allow over the rule texts. */
  lemma {:induction false} VerdictOverTexts(env: Env, views: seq<RuleView>, rules: seq<Rule>, ip: Ip, random: seq<Byte>)
    requires CompiledTo(env, views, rules)
    ensures forall r | r in rules :: RuleOk(r)
    ensures Verdict(env, rules, ip, random) == TextVerdict(env, views, ip, random)
  {
    if views != [] {
      CompiledMeans(env, views[0], ip, random);
      VerdictOverTexts(env, views[1..], rules[1..], ip, random);
      assert forall r | r in rules :: r == rules[0] || r in rules[1..];
    }
  }

  function Ones(n: nat): string {
    seq(n, i => 'f')
  }

  /** A plain prefix behaves as the same prefix with an all-ones mask. */
  lemma PlainIsFullMask(s: string, random: seq<Byte>)
    requires IsHex(s) && '/' !in s
    ensures CompileRandom(s).Some? && CompileRandom(s + "/" + Ones(|s|)).Some?
    ensures TextMatches(s, random) <==> TextMatches(s + "/" + Ones(|s|), random)
  {
    var t, n := s + "/" + Ones(|s|), |s|;
    UptoPrefix(s, '/', Ones(n));
    assert Upto(s, '/') == n;
    assert t[..n] == s && t[n + 1..] == Ones(n);
    assert IsHex(Ones(n));
    DigitValues();
    if n <= 2 * |random| {
      forall i | 0 <= i < n ensures DigitMatches(t, n, random, i) <==> DigitMatches(s, n, random, i) {
        assert t[n + 1..][i] == Ones(n)[i] == 'f';
        FullMask(Digit(random, i));
        FullMask(DigitOf(s[i]).value);
      }
    }
  }

  lemma FullMask(d: bv4)
    ensures d & 15 == d
  {
  }

  ghost predicate Independent(env: Env, a: Rule, b: Rule)
    requires RuleOk(a) && RuleOk(b)
  {
    a.allow == b.allow || forall ip: Ip, random: seq<Byte> :: !(Matches(env, a, ip, random) && Matches(env, b, ip, random))
  }

  /** Swapping adjacent rules that share an action or never both match changes no verdict. */
  lemma {:induction false} SwapAdjacent(env: Env, front: seq<Rule>, a: Rule, b: Rule, back: seq<Rule>, ip: Ip, random: seq<Byte>)
    requires RuleOk(a) && RuleOk(b) && (forall r | r in front + back :: RuleOk(r)) && Independent(env, a, b)
    ensures (forall r | r in front + [a, b] + back :: RuleOk(r)) && (forall r | r in front + [b, a] + back :: RuleOk(r))
    ensures Verdict(env, front + [a, b] + back, ip, random) == Verdict(env, front + [b, a] + back, ip, random)
  {
    if front == [] {
      assert front + [a, b] + back == [a, b] + back && front + [b, a] + back == [b, a] + back;
      assert ([a, b] + back)[1..] == [b] + back && ([b] + back)[1..] == back;
      assert ([b, a] + back)[1..] == [a] + back && ([a] + back)[1..] == back;
    } else {
      SwapAdjacent(env, front[1..], a, b, back, ip, random);
      assert (front + [a, b] + back)[1..] == front[1..] + [a, b] + back;
      assert (front + [b, a] + back)[1..] == front[1..] + [b, a] + back;
    }
  }
}
