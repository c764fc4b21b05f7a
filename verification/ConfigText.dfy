/** Text of `vpn.toml` as the line patcher reads it: trimming, section headers, keys, splitting and joining. */
module ConfigText {
  import opened Tracker
  import opened Credentials

  /** White space as trimmed around lines and keys. */
  predicate IsSpace(c: char) {
    var n := c as int;
    (9 <= n <= 13) || n == 32 || n == 0x85 || n == 0xA0 || n == 0x1680 || (0x2000 <= n <= 0x200A)
    || n == 0x2028 || n == 0x2029 || n == 0x202F || n == 0x205F || n == 0x3000
  }

  function TrimLeft(s: string): string {
    if s == [] || !IsSpace(s[0]) then s else TrimLeft(s[1..])
  }

  function TrimRight(s: string): string {
    if s == [] || !IsSpace(s[|s| - 1]) then s else TrimRight(s[..|s| - 1])
  }

  function TrimSpace(s: string): string {
    TrimRight(TrimLeft(s))
  }

  /** `strings.TrimLeft(s, " \t")`. */
  function TrimIndent(s: string): string {
    if s == [] || (s[0] != ' ' && s[0] != '\t') then s else TrimIndent(s[1..])
  }

  predicate Blank(ln: string) {
    TrimSpace(ln) == ""
  }

  predicate IsSection(ln: string) {
    var t := TrimSpace(ln);
    t != "" && t[0] == '['
  }

  /** The key a top-level line assigns, if it is neither empty nor a comment and has an equals sign. */
  function KeyOf(ln: string): Option<string> {
    var t := TrimIndent(ln);
    if t == "" || t[0] == '#' then None
    else
      var eq := Upto(t, '=');
      if eq < |t| then Some(TrimSpace(t[..eq])) else None
  }

  function FirstSection(lines: seq<string>): (n: nat)
    ensures n <= |lines|
    ensures forall i | 0 <= i < n :: !IsSection(lines[i])
    ensures n < |lines| ==> IsSection(lines[n])
  {
    if lines == [] || IsSection(lines[0]) then 0 else 1 + FirstSection(lines[1..])
  }

  lemma FirstSectionIs(lines: seq<string>, n: nat)
    requires n <= |lines| && (forall i | 0 <= i < n :: !IsSection(lines[i])) && (n < |lines| ==> IsSection(lines[n]))
    ensures FirstSection(lines) == n
  {
  }

  datatype Patch = Patch(key: string, value: string)

  /** Keys are bare words; values are single-line. */
  predicate GoodPatch(p: Patch) {
    && p.key != ""
    && (forall c | c in p.key :: !IsSpace(c) && c != '=')
    && p.key[0] != '#' && p.key[0] != '['
    && '\n' !in p.key && '\n' !in p.value
  }

  function Line(p: Patch): string {
    p.key + " = " + p.value
  }

  lemma TrimmedAlready(s: string)
    requires s != "" && !IsSpace(s[0]) && !IsSpace(s[|s| - 1])
    ensures TrimSpace(s) == s && TrimSpace(s + " ") == s
  {
    assert (s + " ")[..|s|] == s;
    assert IsSpace(' ');
    assert TrimLeft(s + " ") == s + " ";
    assert TrimRight(s + " ") == TrimRight(s);
  }

  lemma {:induction false} TrimRightKeeps(s: string)
    requires s != "" && !IsSpace(s[0])
    ensures TrimRight(s) != "" && TrimRight(s)[0] == s[0]
  {
    if IsSpace(s[|s| - 1]) {
      TrimRightKeeps(s[..|s| - 1]);
    }
  }

  /** A written line is read back as an assignment of its key. */
  lemma LineReadsBack(p: Patch)
    requires GoodPatch(p)
    ensures KeyOf(Line(p)) == Some(p.key) && !IsSection(Line(p)) && !Blank(Line(p)) && '\n' !in Line(p)
  {
    var ln := Line(p);
    assert ln[0] == p.key[0] && p.key[0] in p.key;
    assert !IsSpace(p.key[|p.key| - 1]) by { assert p.key[|p.key| - 1] in p.key; }
    TrimRightKeeps(ln);
    assert IsSpace(' ') && IsSpace('\t');
    assert TrimIndent(ln) == ln;
    assert '=' !in p.key + " ";
    assert ln == (p.key + " ") + "=" + (" " + p.value);
    UptoPrefix(p.key + " ", '=', " " + p.value);
    assert ln[..|p.key| + 1] == p.key + " ";
    TrimmedAlready(p.key);
  }

  lemma EmptyLine()
    ensures Blank("") && !IsSection("") && KeyOf("") == None
  {
  }

  // ---------------------------------------------------------------- files and lines

  function Split(data: string): (r: seq<string>)
    ensures r != []
    ensures forall i | 0 <= i < |r| :: '\n' !in r[i]
  {
    var n := Upto(data, '\n');
    if n == |data| then
      assert data[..n] == data;
      [data]
    else [data[..n]] + Split(data[n + 1..])
  }

  function Join(lines: seq<string>): string {
    if lines == [] then "" else if |lines| == 1 then lines[0] else lines[0] + "\n" + Join(lines[1..])
  }

  lemma {:induction false} SplitJoin(lines: seq<string>)
    requires lines != [] && forall i | 0 <= i < |lines| :: '\n' !in lines[i]
    ensures Split(Join(lines)) == lines
  {
    if |lines| == 1 {
      assert lines == [lines[0]];
    } else {
      SplitJoin(lines[1..]);
      UptoPrefix(lines[0], '\n', Join(lines[1..]));
      var data := lines[0] + "\n" + Join(lines[1..]);
      assert data[..|lines[0]|] == lines[0] && data[|lines[0]| + 1..] == Join(lines[1..]);
      assert lines == [lines[0]] + lines[1..];
    }
  }

  lemma {:induction false} JoinSplit(data: string)
    ensures Join(Split(data)) == data
  {
    var n := Upto(data, '\n');
    if n == |data| {
      assert data[..n] == data;
    } else {
      JoinSplit(data[n + 1..]);
      assert data == data[..n] + "\n" + data[n + 1..];
      assert ([data[..n]] + Split(data[n + 1..]))[1..] == Split(data[n + 1..]);
    }
  }
}
