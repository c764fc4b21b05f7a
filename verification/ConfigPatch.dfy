/** The line patcher of `vpn.toml`: a source-to-source edit that sets top-level keys and is meant to keep
    everything else. Lines live in one backing array that slices share, as in the original. */
module ConfigPatch {
  import opened Tracker
  import opened ConfigText

  ghost predicate GoodPatches(ps: seq<Patch>) {
    && (forall i | 0 <= i < |ps| :: GoodPatch(ps[i]))
    && (forall i, j | 0 <= i < j < |ps| :: ps[i].key != ps[j].key)
  }

  /** The first patch for a key. */
  function Find(ps: seq<Patch>, key: string): (r: Option<Patch>)
    ensures r.Some? ==> r.value in ps && r.value.key == key
    ensures r.None? <==> forall p | p in ps :: p.key != key
  {
    if ps == [] then None else if ps[0].key == key then Some(ps[0]) else Find(ps[1..], key)
  }

  lemma {:induction false} FindUnique(ps: seq<Patch>, p: Patch)
    requires GoodPatches(ps) && p in ps
    ensures Find(ps, p.key) == Some(p)
  {
    if ps[0] != p {
      var i :| 0 <= i < |ps| && ps[i] == p;
      assert ps[1..][i - 1] == p;
      assert ps[0].key != ps[i].key;
      FindUnique(ps[1..], p);
    }
  }

  function Replaced(ln: string, ps: seq<Patch>): string {
    var k := KeyOf(ln);
    if k.Some? && Find(ps, k.value).Some? then Line(Find(ps, k.value).value) else ln
  }

  function ReplacedAll(lines: seq<string>, ps: seq<Patch>): (r: seq<string>)
    ensures |r| == |lines|
    ensures forall i | 0 <= i < |lines| :: r[i] == Replaced(lines[i], ps)
  {
    seq(|lines|, i requires 0 <= i < |lines| => Replaced(lines[i], ps))
  }

  /** Some top-level line assigns `key`. */
  predicate Assigned(top: seq<string>, key: string) {
    exists i | 0 <= i < |top| :: KeyOf(top[i]) == Some(key)
  }

  /** Lines for the patches whose key no top-level line assigns, in patch order. */
  function Extras(ps: seq<Patch>, top: seq<string>): seq<string> {
    if ps == [] then []
    else
      var n := |ps| - 1;
      Extras(ps[..n], top) + if Assigned(top, ps[n].key) then [] else [Line(ps[n])]
  }

  /** The extras are exactly the lines of the unassigned patches. */
  lemma {:induction false} ExtrasAre(ps: seq<Patch>, top: seq<string>)
    ensures forall x :: x in Extras(ps, top) <==> exists j | 0 <= j < |ps| :: x == Line(ps[j]) && !Assigned(top, ps[j].key)
  {
    if ps != [] {
      var n := |ps| - 1;
      ExtrasAre(ps[..n], top);
      forall x ensures x in Extras(ps, top) <==> exists j | 0 <= j < |ps| :: x == Line(ps[j]) && !Assigned(top, ps[j].key) {
        if x in Extras(ps[..n], top) {
          var j :| 0 <= j < n && x == Line(ps[..n][j]) && !Assigned(top, ps[..n][j].key);
          assert x == Line(ps[j]);
        }
        if j :| 0 <= j < |ps| && x == Line(ps[j]) && !Assigned(top, ps[j].key) {
          assert j < n ==> ps[..n][j] == ps[j];
        }
      }
    }
  }

  function Gap(need: bool): seq<string> {
    if need then [""] else []
  }

  /** Lines between a top part and the rest, set off by blank lines. */
  function Block(top: seq<string>, extras: seq<string>, rest: seq<string>): seq<string> {
    Gap(top != [] && !Blank(top[|top| - 1])) + extras + Gap(rest != [] && !Blank(rest[0]))
  }

  /** The same with a separator written over the first line of the rest. */
  function Torn(top: seq<string>, extras: seq<string>, rest: seq<string>): seq<string>
    requires rest != []
  {
    top + [""] + extras + [""] + rest[1..]
  }

  /** The intended result: replaced top level, then missing keys set off by blank lines, then the sections. */
  function Patched(lines: seq<string>, ps: seq<Patch>): seq<string> {
    var n := FirstSection(lines);
    var top, rest := ReplacedAll(lines[..n], ps), lines[n..];
    var extras := Extras(ps, lines[..n]);
    if extras == [] then top + rest else top + Block(top, extras, rest) + rest
  }

  /** The guard of the failing branch: a key must be inserted before a section, and the line above the
      section header is not blank. */
  predicate Clobbers(lines: seq<string>, ps: seq<Patch>) {
    var n := FirstSection(lines);
    Extras(ps, lines[..n]) != [] && 0 < n < |lines| && !Blank(lines[n - 1])
  }

  /** What the original computes. Appending the separator writes through the shared backing array, over the
      section header. */
  function Actual(lines: seq<string>, ps: seq<Patch>): seq<string> {
    if Clobbers(lines, ps) then
      var n := FirstSection(lines);
      Torn(ReplacedAll(lines[..n], ps), Extras(ps, lines[..n]), lines[n..])
    else Patched(lines, ps)
  }

  // ---------------------------------------------------------------- the edit in place

  /** Go's `append` on the first `n` elements of a backing array: in place while there is capacity. */
  method Append(a: array<string>, n: nat, x: string) returns (b: array<string>)
    requires n <= a.Length
    modifies a
    ensures n < a.Length ==> b == a && a[..] == old(a[..])[n := x]
    ensures n == a.Length ==> fresh(b) && a[..] == old(a[..])
    ensures n < b.Length && b[..n + 1] == old(a[..n]) + [x]
  {
    if n < a.Length {
      a[n] := x;
      b := a;
    } else {
      b := new string[n + 1](i => x);
      forall i | 0 <= i < n {
        b[i] := a[i];
      }
    }
  }

  method FindSection(lines: array<string>) returns (n: nat)
    ensures n == FirstSection(lines[..])
  {
    n := 0;
    while n < lines.Length && !IsSection(lines[n])
      invariant n <= lines.Length
      invariant forall i | 0 <= i < n :: !IsSection(lines[i])
    {
      n := n + 1;
    }
    FirstSectionIs(lines[..], n);
  }

  /** The first `i` lines have been rewritten. */
  ghost predicate Rewritten(was: seq<string>, out: seq<string>, i: nat, ps: seq<Patch>) {
    && i <= |was| == |out|
    && (forall k | 0 <= k < i :: out[k] == Replaced(was[k], ps))
    && (forall k | i <= k < |was| :: out[k] == was[k])
  }

  /** The patches whose key one of the first `i` lines assigns are marked. */
  ghost predicate Marked(was: seq<string>, applied: seq<bool>, i: nat, ps: seq<Patch>) {
    i <= |was| && |applied| == |ps| && forall j | 0 <= j < |ps| :: applied[j] <==> Assigned(was[..i], ps[j].key)
  }

  lemma RewrittenIs(was: seq<string>, out: seq<string>, n: nat, ps: seq<Patch>)
    requires Rewritten(was, out, n, ps)
    ensures out == ReplacedAll(was[..n], ps) + was[n..]
  {
  }

  lemma AssignedOneMore(top: seq<string>, i: nat, key: string)
    requires i < |top|
    ensures Assigned(top[..i + 1], key) <==> Assigned(top[..i], key) || KeyOf(top[i]) == Some(key)
  {
    assert top[..i + 1] == top[..i] + [top[i]];
    if Assigned(top[..i], key) {
      var k :| 0 <= k < i && KeyOf(top[..i][k]) == Some(key);
      assert top[..i + 1][k] == top[..i][k];
    }
    assert top[..i + 1][i] == top[i];
  }

  lemma MarkedOneMore(was: seq<string>, before: seq<bool>, after: seq<bool>, i: nat, ps: seq<Patch>)
    requires Marked(was, before, i, ps) && i < |was| && |after| == |ps|
    requires forall j | 0 <= j < |ps| :: after[j] == (before[j] || KeyOf(was[i]) == Some(ps[j].key))
    ensures Marked(was, after, i + 1, ps)
  {
    forall j | 0 <= j < |ps| ensures after[j] <==> Assigned(was[..i + 1], ps[j].key) {
      AssignedOneMore(was, i, ps[j].key);
    }
  }

  /** Rewrites the top-level lines in place and marks the patches that found their key. */
  method ReplaceKeys(lines: array<string>, n: nat, ps: seq<Patch>) returns (applied: array<bool>)
    requires n <= lines.Length && GoodPatches(ps)
    modifies lines
    ensures fresh(applied) && applied.Length == |ps|
    ensures lines[..] == ReplacedAll(old(lines[..])[..n], ps) + old(lines[..])[n..]
    ensures forall j | 0 <= j < |ps| :: applied[j] <==> Assigned(old(lines[..])[..n], ps[j].key)
  {
    ghost var was := lines[..];
    applied := new bool[|ps|](i => false);
    var i := 0;
    while i < n
      invariant 0 <= i <= n
      invariant Rewritten(was, lines[..], i, ps) && Marked(was, applied[..], i, ps)
      modifies lines, applied
    {
      ReplaceNext(lines, i, ps, applied, was);
      i := i + 1;
    }
    RewrittenIs(was, lines[..], n, ps);
  }

  method ReplaceNext(lines: array<string>, i: nat, ps: seq<Patch>, applied: array<bool>, ghost was: seq<string>)
    requires i < lines.Length && GoodPatches(ps)
    requires Rewritten(was, lines[..], i, ps) && Marked(was, applied[..], i, ps)
    modifies lines, applied
    ensures Rewritten(was, lines[..], i + 1, ps) && Marked(was, applied[..], i + 1, ps)
  {
    ghost var before := applied[..];
    ReplaceLine(lines, i, ps, applied);
    MarkedOneMore(was, before, applied[..], i, ps);
  }

  method ReplaceLine(lines: array<string>, i: nat, ps: seq<Patch>, applied: array<bool>)
    requires i < lines.Length && GoodPatches(ps) && applied.Length == |ps|
    modifies lines, applied
    ensures forall k | 0 <= k < lines.Length && k != i :: lines[k] == old(lines[k])
    ensures lines[i] == Replaced(old(lines[i]), ps)
    ensures forall j | 0 <= j < |ps| :: applied[j] == (old(applied[j]) || KeyOf(old(lines[i])) == Some(ps[j].key))
  {
    var key := KeyOf(lines[i]);
    if key.None? {
      return;
    }
    var j := 0;
    while j < |ps| && ps[j].key != key.value
      invariant 0 <= j <= |ps|
      invariant forall m | 0 <= m < j :: ps[m].key != key.value
    {
      j := j + 1;
    }
    if j < |ps| {
      FindUnique(ps, ps[j]);
      lines[i] := Line(ps[j]);
      applied[j] := true;
      assert forall m | 0 <= m < |ps| && m != j :: ps[m].key != ps[j].key;
    }
  }

  method CollectExtras(ps: seq<Patch>, applied: array<bool>, ghost top: seq<string>) returns (extras: seq<string>)
    requires applied.Length == |ps| && forall j | 0 <= j < |ps| :: applied[j] <==> Assigned(top, ps[j].key)
    ensures extras == Extras(ps, top)
  {
    extras := [];
    var j := 0;
    while j < |ps|
      invariant 0 <= j <= |ps|
      invariant extras == Extras(ps[..j], top)
    {
      assert ps[..j + 1][..j] == ps[..j];
      if !applied[j] {
        extras := extras + [Line(ps[j])];
      }
      j := j + 1;
    }
    assert ps[..j] == ps;
  }

  /** Inserting lines before position `n`, with the separator written through the shared array. */
  function Spliced(lines: seq<string>, n: nat, extras: seq<string>): seq<string>
    requires n <= |lines|
  {
    if 0 < n < |lines| && !Blank(lines[n - 1]) then Torn(lines[..n], extras, lines[n..])
    else lines[..n] + Block(lines[..n], extras, lines[n..]) + lines[n..]
  }

  lemma BlockParts(a: seq<string>, b: seq<string>, c: seq<string>, d: seq<string>, e: seq<string>)
    ensures a + b + c + d + e == a + (b + c + d) + e
  {
  }

  lemma TornParts(top: seq<string>, extras: seq<string>, rest: seq<string>)
    ensures (top + [""]) + extras + [] + ([""] + rest) == top + [""] + extras + [""] + rest
  {
  }

  lemma SpliceParts(lines: seq<string>, n: nat, extras: seq<string>, before: seq<string>, after: seq<string>)
    requires n <= |lines|
    requires before == lines[..n] + Gap(n > 0 && !Blank(lines[n - 1]))
    requires after == if 0 < n < |lines| && !Blank(lines[n - 1]) then [""] + lines[n + 1..] else lines[n..]
    ensures before + extras + Gap(after != [] && !Blank(after[0])) + after == Spliced(lines, n, extras)
  {
    var top, rest := lines[..n], lines[n..];
    EmptyLine();
    if 0 < n < |lines| && !Blank(lines[n - 1]) {
      assert rest[1..] == lines[n + 1..];
      TornParts(top, extras, rest[1..]);
    } else {
      BlockParts(top, Gap(top != [] && !Blank(top[|top| - 1])), extras, Gap(rest != [] && !Blank(rest[0])), rest);
    }
  }

  method Splice(lines: array<string>, n: nat, extras: seq<string>) returns (out: seq<string>)
    requires n <= lines.Length
    modifies lines
    ensures out == Spliced(old(lines[..]), n, extras)
  {
    ghost var was := lines[..];
    assert lines[..n] == was[..n] && lines[n..] == was[n..];
    var before, len := lines, n;
    if n > 0 && !Blank(lines[n - 1]) {
      before := Append(lines, n, "");
      len := n + 1;
      assert before[..len] == was[..n] + [""];
      assert n < |was| ==> lines[n..] == [""] + was[n + 1..];
    }
    var after := lines[n..];
    SpliceParts(was, n, extras, before[..len], after);
    out := before[..len] + extras;
    if after != [] && !Blank(after[0]) {
      out := out + [""];
    }
    out := out + after;
  }

  lemma ActualIsSpliced(lines: seq<string>, ps: seq<Patch>)
    requires GoodPatches(ps) && Extras(ps, lines[..FirstSection(lines)]) != []
    ensures var n := FirstSection(lines);
            var rewritten := ReplacedAll(lines[..n], ps) + lines[n..];
            Actual(lines, ps) == Spliced(rewritten, n, Extras(ps, lines[..n]))
  {
    var n := FirstSection(lines);
    var top := ReplacedAll(lines[..n], ps);
    var rewritten := top + lines[n..];
    assert rewritten[..n] == top && rewritten[n..] == lines[n..];
    if n > 0 {
      assert rewritten[n - 1] == top[n - 1] == Replaced(lines[n - 1], ps);
      ReplacedBlank(lines[n - 1], ps);
    }
  }

  /** The whole transformation between reading and writing the file. */
  method PatchLines(lines: array<string>, ps: seq<Patch>) returns (out: seq<string>)
    requires GoodPatches(ps)
    modifies lines
    ensures out == Actual(old(lines[..]), ps)
  {
    ghost var was := lines[..];
    var n := FindSection(lines);
    assert lines[..n] == was[..n] && lines[n..] == was[n..];
    var applied := ReplaceKeys(lines, n, ps);
    var extras := CollectExtras(ps, applied, was[..n]);
    if extras == [] {
      out := lines[..];
    } else {
      ActualIsSpliced(was, ps);
      out := Splice(lines, n, extras);
    }
  }

  /** Replacing never turns a blank line into a non-blank one or back. */
  lemma ReplacedBlank(ln: string, ps: seq<Patch>)
    requires GoodPatches(ps)
    ensures Blank(Replaced(ln, ps)) <==> Blank(ln)
  {
    var k := KeyOf(ln);
    if k.Some? && Find(ps, k.value).Some? {
      LineReadsBack(Find(ps, k.value).value);
      KeyedNotBlank(ln);
    }
  }

  lemma {:induction false} KeyedNotBlank(ln: string)
    requires KeyOf(ln).Some?
    ensures !Blank(ln)
  {
    var t := TrimIndent(ln);
    IndentKeepsEquals(ln);
    assert '=' in ln;
    TrimKeepsEquals(ln);
  }

  lemma {:induction false} IndentKeepsEquals(ln: string)
    ensures '=' in TrimIndent(ln) ==> '=' in ln
  {
    if ln != "" && (ln[0] == ' ' || ln[0] == '\t') {
      IndentKeepsEquals(ln[1..]);
    }
  }

  lemma {:induction false} TrimKeepsEquals(ln: string)
    requires '=' in ln
    ensures '=' in TrimSpace(ln)
  {
    LeftKeepsEquals(ln);
    RightKeepsEquals(TrimLeft(ln));
  }

  lemma {:induction false} LeftKeepsEquals(s: string)
    requires '=' in s
    ensures '=' in TrimLeft(s)
  {
    if IsSpace(s[0]) { LeftKeepsEquals(s[1..]); }
  }

  lemma {:induction false} RightKeepsEquals(s: string)
    requires '=' in s
    ensures '=' in TrimRight(s)
  {
    if IsSpace(s[|s| - 1]) {
      assert s == s[..|s| - 1] + [s[|s| - 1]];
      RightKeepsEquals(s[..|s| - 1]);
    }
  }
}
