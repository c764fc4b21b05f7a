/** What a line of `vpn.toml` is, told by its text: blank, section header, assignment of a key, or none of these. */
module ConfigLines {
  import opened Tracker
  import opened Credentials
  import opened ConfigText

  predicate AllSpace(s: string) {
    forall c | c in s :: IsSpace(c)
  }

  /** Neither end is white space. */
  predicate Trimmed(t: string) {
    t == "" || (!IsSpace(t[0]) && !IsSpace(t[|t| - 1]))
  }

  lemma {:induction false} LeftIs(a: string, t: string)
    requires AllSpace(a) && (t == "" || !IsSpace(t[0]))
    ensures TrimLeft(a + t) == t
  {
    if a == "" {
      assert a + t == t;
    } else {
      assert (a + t)[1..] == a[1..] + t && (a + t)[0] in a;
      LeftIs(a[1..], t);
    }
  }

  lemma {:induction false} RightIs(t: string, b: string)
    requires AllSpace(b) && (t == "" || !IsSpace(t[|t| - 1]))
    ensures TrimRight(t + b) == t
  {
    if b == "" {
      assert t + b == t;
    } else {
      var n := |b| - 1;
      assert (t + b)[..|t + b| - 1] == t + b[..n] && (t + b)[|t + b| - 1] == b[n];
      RightIs(t, b[..n]);
    }
  }

  /** Trimming takes off exactly the white space at both ends. */
  lemma TrimIs(a: string, t: string, b: string)
    requires AllSpace(a) && AllSpace(b) && Trimmed(t)
    ensures TrimSpace(a + t + b) == t
  {
    if t == "" {
      assert a + t + b == (a + b) + t;
      LeftIs(a + b, t);
    } else {
      assert a + t + b == a + (t + b);
      LeftIs(a, t + b);
      RightIs(t, b);
    }
  }

  lemma {:induction false} LeftParts(s: string) returns (a: string)
    ensures AllSpace(a) && s == a + TrimLeft(s) && (TrimLeft(s) == "" || !IsSpace(TrimLeft(s)[0]))
  {
    if s == "" || !IsSpace(s[0]) {
      a := "";
    } else {
      var rest := LeftParts(s[1..]);
      a := [s[0]] + rest;
      assert TrimLeft(s) == TrimLeft(s[1..]);
      assert a + TrimLeft(s) == [s[0]] + (rest + TrimLeft(s));
    }
  }

  lemma {:induction false} RightParts(s: string) returns (b: string)
    ensures AllSpace(b) && s == TrimRight(s) + b && (TrimRight(s) == "" || !IsSpace(TrimRight(s)[|TrimRight(s)| - 1]))
  {
    if s == "" || !IsSpace(s[|s| - 1]) {
      b := "";
    } else {
      var n := |s| - 1;
      var rest := RightParts(s[..n]);
      b := rest + [s[n]];
      assert TrimRight(s) == TrimRight(s[..n]);
      assert TrimRight(s) + b == (TrimRight(s) + rest) + [s[n]];
    }
  }

  /** Every line is white space, its trimmed text, and white space. */
  lemma TrimParts(s: string) returns (a: string, b: string)
    ensures AllSpace(a) && AllSpace(b) && Trimmed(TrimSpace(s)) && s == a + TrimSpace(s) + b
  {
    a := LeftParts(s);
    b := RightParts(TrimLeft(s));
    if TrimSpace(s) != "" {
      assert TrimLeft(s)[0] == TrimSpace(s)[0];
    }
  }

  /** A line is blank if and only if it is all white space. */
  lemma BlankIff(ln: string)
    ensures Blank(ln) <==> AllSpace(ln)
  {
    if AllSpace(ln) {
      TrimIs(ln, "", "");
      assert ln + "" + "" == ln;
    }
    if Blank(ln) {
      var a, b := TrimParts(ln);
      assert ln == a + b;
    }
  }

  ghost predicate IndentedBracket(ln: string, a: string) {
    |a| < |ln| && ln[..|a|] == a && AllSpace(a) && ln[|a|] == '['
  }

  /** A line is a section header if and only if its first character that is not white space is a bracket. */
  lemma SectionIff(ln: string)
    ensures IsSection(ln) <==> exists a :: IndentedBracket(ln, a)
  {
    if IsSection(ln) {
      var a, b := TrimParts(ln);
      assert ln[|a|] == TrimSpace(ln)[0];
      assert IndentedBracket(ln, a);
    }
    if a :| IndentedBracket(ln, a) {
      var rest := ln[|a|..];
      assert ln == a + rest && rest[0] == '[';
      LeftIs(a, rest);
      TrimRightKeeps(rest);
    }
  }

  /** The white space of Latin-1 is white space; nothing that matters to a line's meaning is. */
  lemma SpacesAre(c: char)
    ensures c in {'\t', '\n', '\U{0B}', '\U{0C}', '\r', ' ', '\U{85}', '\U{A0}'} ==> IsSpace(c)
    ensures ' ' < c <= '~' ==> !IsSpace(c)
  {
  }

  // ---------------------------------------------------------------- keys

  predicate Indent(s: string) {
    forall c | c in s :: c == ' ' || c == '\t'
  }

  lemma {:induction false} IndentIs(a: string, t: string)
    requires Indent(a) && (t == "" || (t[0] != ' ' && t[0] != '\t'))
    ensures TrimIndent(a + t) == t
  {
    if a == "" {
      assert a + t == t;
    } else {
      assert (a + t)[1..] == a[1..] + t && (a + t)[0] in a;
      forall c | c in a[1..] ensures c == ' ' || c == '\t' { assert c in a; }
      IndentIs(a[1..], t);
    }
  }

  lemma {:induction false} IndentParts(s: string) returns (a: string)
    ensures Indent(a) && s == a + TrimIndent(s) && (TrimIndent(s) == "" || (TrimIndent(s)[0] != ' ' && TrimIndent(s)[0] != '\t'))
  {
    if s == "" || (s[0] != ' ' && s[0] != '\t') {
      a := "";
    } else {
      var rest := IndentParts(s[1..]);
      a := [s[0]] + rest;
      assert TrimIndent(s) == TrimIndent(s[1..]);
      assert a + TrimIndent(s) == [s[0]] + (rest + TrimIndent(s));
    }
  }

  /** `ln` assigns `key`: an indent, the key between white space, an equals sign and anything; not a comment. */
  ghost predicate Assigns(ln: string, key: string, a: string, x: string, y: string, rest: string) {
    && ln == a + (x + key + y) + "=" + rest && Indent(a) && AllSpace(x) && AllSpace(y) && Trimmed(key)
    && '=' !in x + key + y
    && (x + key + y == "" || (x + key + y)[0] !in {' ', '\t', '#'})
  }

  /** However the key is spaced and indented, it is found. */
  lemma KeyFound(ln: string, key: string, a: string, x: string, y: string, rest: string)
    requires Assigns(ln, key, a, x, y, rest)
    ensures KeyOf(ln) == Some(key)
  {
    var k := x + key + y;
    var t := k + "=" + rest;
    assert ln == a + t;
    IndentIs(a, t);
    UptoPrefix(k, '=', rest);
    assert t[..|k|] == k;
    TrimIs(x, key, y);
  }

  lemma CutAt(t: string, n: nat)
    requires n < |t| && t[n] == '='
    ensures t == t[..n] + "=" + t[n + 1..]
  {
  }

  /** And a key is found only there. */
  lemma KeyParts(ln: string) returns (a: string, x: string, y: string, rest: string)
    requires KeyOf(ln).Some?
    ensures Assigns(ln, KeyOf(ln).value, a, x, y, rest)
  {
    a := IndentParts(ln);
    var t := TrimIndent(ln);
    var eq := Upto(t, '=');
    var k := t[..eq];
    x, y := TrimParts(k);
    rest := t[eq + 1..];
    CutAt(t, eq);
    assert k != "" ==> k[0] == t[0];
    AssignsIs(ln, a, k, x, TrimSpace(k), y, rest);
  }

  lemma AssignsIs(ln: string, a: string, k: string, x: string, key: string, y: string, rest: string)
    requires ln == a + (k + "=" + rest) && k == x + key + y && Indent(a) && AllSpace(x) && AllSpace(y) && Trimmed(key)
    requires '=' !in k && (k == "" || k[0] !in {' ', '\t', '#'})
    ensures Assigns(ln, key, a, x, y, rest)
  {
  }

  /** The form without spaces, with which hand-written files may assign a key. */
  lemma TightKey(key: string, rest: string)
    requires Trimmed(key) && key != "" && '=' !in key && key[0] != '#'
    ensures KeyOf(key + "=" + rest) == Some(key)
  {
    assert key + "=" + rest == "" + ("" + key + "") + "=" + rest;
    assert "" + key + "" == key;
    KeyFound(key + "=" + rest, key, "", "", "", rest);
  }
}
