/** What a patch means: which lines survive, which values are set, and when. */
module ConfigMeaning {
  import opened Tracker
  import opened ConfigText
  import opened ConfigPatch

  /** The inserted block of the intended result. */
  function Added(lines: seq<string>, ps: seq<Patch>): seq<string> {
    var n := FirstSection(lines);
    var top, rest := ReplacedAll(lines[..n], ps), lines[n..];
    var extras := Extras(ps, lines[..n]);
    if extras == [] then [] else Block(top, extras, rest)
  }

  /** Everything above the sections in the intended result. */
  function Head(lines: seq<string>, ps: seq<Patch>): seq<string> {
    ReplacedAll(lines[..FirstSection(lines)], ps) + Added(lines, ps)
  }

  /** Where a line of the head comes from. */
  ghost predicate HeadLine(x: string, lines: seq<string>, ps: seq<Patch>) {
    var n := FirstSection(lines);
    || x == ""
    || (exists i | 0 <= i < n :: x == Replaced(lines[i], ps))
    || (exists j | 0 <= j < |ps| :: x == Line(ps[j]) && !Assigned(lines[..n], ps[j].key))
  }

  lemma HeadLines(lines: seq<string>, ps: seq<Patch>, x: string)
    requires x in Head(lines, ps)
    ensures HeadLine(x, lines, ps)
  {
    var n := FirstSection(lines);
    var top := ReplacedAll(lines[..n], ps);
    ExtrasAre(ps, lines[..n]);
    if x in top {
      var i :| 0 <= i < n && top[i] == x;
      assert x == Replaced(lines[i], ps);
    }
  }

  lemma ReplacedNoSection(ln: string, ps: seq<Patch>)
    requires GoodPatches(ps) && !IsSection(ln)
    ensures !IsSection(Replaced(ln, ps))
  {
    var k := KeyOf(ln);
    if k.Some? && Find(ps, k.value).Some? {
      LineReadsBack(Find(ps, k.value).value);
    }
  }

  lemma PatchedIs(lines: seq<string>, ps: seq<Patch>)
    ensures Patched(lines, ps) == Head(lines, ps) + lines[FirstSection(lines)..]
  {
    var top := ReplacedAll(lines[..FirstSection(lines)], ps);
    assert top + [] == top;
  }

  lemma HeadLineNoSection(lines: seq<string>, ps: seq<Patch>, x: string)
    requires GoodPatches(ps) && HeadLine(x, lines, ps)
    ensures !IsSection(x)
  {
    if j :| 0 <= j < FirstSection(lines) && x == Replaced(lines[j], ps) {
      ReplacedNoSection(lines[j], ps);
    } else if j :| 0 <= j < |ps| && x == Line(ps[j]) {
      LineReadsBack(ps[j]);
    } else {
      EmptyLine();
    }
  }

  /** The head ends exactly where the first section of the result begins. */
  lemma HeadIsTop(lines: seq<string>, ps: seq<Patch>)
    requires GoodPatches(ps)
    ensures Patched(lines, ps) == Head(lines, ps) + lines[FirstSection(lines)..]
    ensures FirstSection(Patched(lines, ps)) == |Head(lines, ps)|
  {
    PatchedIs(lines, ps);
    var n, head, out := FirstSection(lines), Head(lines, ps), Patched(lines, ps);
    forall i | 0 <= i < |head| ensures !IsSection(out[i]) {
      assert out[i] == head[i];
      HeadLines(lines, ps, head[i]);
      HeadLineNoSection(lines, ps, head[i]);
    }
    assert |head| < |out| ==> out[|head|] == lines[n];
    FirstSectionIs(out, |head|);
  }

  // ---------------------------------------------------------------- sections

  predicate EndsWith(out: seq<string>, tail: seq<string>) {
    |tail| <= |out| && out[|out| - |tail|..] == tail
  }

  lemma TornTail(top: seq<string>, extras: seq<string>, rest: seq<string>)
    requires rest != []
    ensures EndsWith(Torn(top, extras, rest), rest) ==> rest[0] == ""
  {
    var out := Torn(top, extras, rest);
    var front := top + [""] + extras;
    assert out == front + ([""] + rest[1..]);
    assert out[|out| - |rest|..] == [""] + rest[1..];
  }

  /** Main result: everything from the first section header on survives the edit if and only if the guard
      of the in-place append is false. */
  lemma SectionsKeptIff(lines: seq<string>, ps: seq<Patch>)
    requires GoodPatches(ps)
    ensures EndsWith(Actual(lines, ps), lines[FirstSection(lines)..]) <==> !Clobbers(lines, ps)
  {
    var n := FirstSection(lines);
    var out := Actual(lines, ps);
    if Clobbers(lines, ps) {
      TornTail(ReplacedAll(lines[..n], ps), Extras(ps, lines[..n]), lines[n..]);
      EmptyLine();
    } else {
      HeadIsTop(lines, ps);
      var head := Head(lines, ps);
      assert out[|head|..] == lines[n..];
    }
  }

  /** What the failing family looks like: adding a key between a non-blank line and a section header
      replaces the header by a blank line. */
  lemma HeaderLost(above: string, header: string, p: Patch)
    requires !Blank(above) && !IsSection(above) && KeyOf(above) != Some(p.key) && IsSection(header)
    ensures Clobbers([above, header], [p])
    ensures Actual([above, header], [p]) == [above, "", Line(p), ""]
  {
    var lines, ps := [above, header], [p];
    FirstSectionIs(lines, 1);
    assert lines[..1] == [above];
    assert ps[..0] == [];
    assert !Assigned([above], p.key);
    assert Extras(ps, [above]) == [] + [Line(p)];
    assert Replaced(above, ps) == above;
    assert ReplacedAll([above], ps) == [above];
    assert lines[2..] == [];
  }

  /** A concrete file that loses its header. */
  lemma HeaderLostExample()
    ensures Actual(["a = 1", "[s]"], [Patch("k", "2")]) == ["a = 1", "", Line(Patch("k", "2")), ""]
  {
    var a := Patch("a", "1");
    LineReadsBack(a);
    assert Line(a) == "a = 1";
    assert IsSection("[s]") by { TrimmedAlready("[s]"); }
    HeaderLost("a = 1", "[s]", Patch("k", "2"));
  }

  // ---------------------------------------------------------------- values

  /** At top level `key` is assigned, and only by lines equal to `ln`. */
  ghost predicate SetTo(lines: seq<string>, key: string, ln: string) {
    && Assigned(lines[..FirstSection(lines)], key)
    && forall i | 0 <= i < FirstSection(lines) && KeyOf(lines[i]) == Some(key) :: lines[i] == ln
  }

  lemma HeadAssigns(lines: seq<string>, ps: seq<Patch>, p: Patch)
    requires GoodPatches(ps) && p in ps
    ensures Assigned(Head(lines, ps), p.key)
  {
    var n, head := FirstSection(lines), Head(lines, ps);
    LineReadsBack(p);
    if Assigned(lines[..n], p.key) {
      var i :| 0 <= i < n && KeyOf(lines[..n][i]) == Some(p.key);
      FindUnique(ps, p);
      var top := ReplacedAll(lines[..n], ps);
      assert head[i] == top[i] == Line(p);
    } else {
      ExtrasAre(ps, lines[..n]);
      var j :| 0 <= j < |ps| && ps[j] == p;
      assert Line(ps[j]) in Extras(ps, lines[..n]);
      assert Line(p) in head;
      var i :| 0 <= i < |head| && head[i] == Line(p);
      assert KeyOf(head[i]) == Some(p.key);
    }
  }

  lemma HeadLineValue(lines: seq<string>, ps: seq<Patch>, p: Patch, x: string)
    requires GoodPatches(ps) && p in ps && HeadLine(x, lines, ps) && KeyOf(x) == Some(p.key)
    ensures x == Line(p)
  {
    FindUnique(ps, p);
    if i :| 0 <= i < FirstSection(lines) && x == Replaced(lines[i], ps) {
      var k := KeyOf(lines[i]);
      if k.Some? && Find(ps, k.value).Some? {
        LineReadsBack(Find(ps, k.value).value);
      }
    } else if j :| 0 <= j < |ps| && x == Line(ps[j]) {
      LineReadsBack(ps[j]);
      FindUnique(ps, ps[j]);
    } else {
      EmptyLine();
    }
  }

  /** Every patched key has its new value at top level, and no other. */
  lemma PatchedKeysSet(lines: seq<string>, ps: seq<Patch>, p: Patch)
    requires GoodPatches(ps) && p in ps && !Clobbers(lines, ps)
    ensures SetTo(Actual(lines, ps), p.key, Line(p))
  {
    HeadIsTop(lines, ps);
    HeadAssigns(lines, ps, p);
    var out, head := Actual(lines, ps), Head(lines, ps);
    assert out[..|head|] == head;
    forall i | 0 <= i < |head| && KeyOf(out[i]) == Some(p.key) ensures out[i] == Line(p) {
      assert out[i] == head[i];
      HeadLines(lines, ps, head[i]);
      HeadLineValue(lines, ps, p, head[i]);
    }
  }

  // ---------------------------------------------------------------- everything else

  /** A top-level line of the result against the original one in its place: unchanged, or rewritten for a
      patched key that it assigns. */
  ghost predicate KeptLine(ln: string, x: string, ps: seq<Patch>) {
    x == ln || exists p | p in ps :: KeyOf(ln) == Some(p.key) && x == Line(p)
  }

  /** An inserted line: blank, or a patched key that no top-level line assigns. */
  ghost predicate NewLine(x: string, top: seq<string>, ps: seq<Patch>) {
    x == "" || exists p | p in ps :: !Assigned(top, p.key) && x == Line(p)
  }

  lemma ReplacedKept(ln: string, ps: seq<Patch>)
    ensures KeptLine(ln, Replaced(ln, ps), ps)
  {
    var k := KeyOf(ln);
    if k.Some? && Find(ps, k.value).Some? {
      var p := Find(ps, k.value).value;
      assert p in ps && KeyOf(ln) == Some(p.key);
    }
  }

  lemma AddedNew(lines: seq<string>, ps: seq<Patch>, x: string)
    requires x in Added(lines, ps)
    ensures NewLine(x, lines[..FirstSection(lines)], ps)
  {
    var top := lines[..FirstSection(lines)];
    ExtrasAre(ps, top);
    if x != "" {
      assert x in Extras(ps, top);
      var j :| 0 <= j < |ps| && x == Line(ps[j]) && !Assigned(top, ps[j].key);
      assert ps[j] in ps;
    }
  }

  lemma HeadParts(top: seq<string>, added: seq<string>, i: nat)
    requires i < |top + added|
    ensures if i < |top| then (top + added)[i] == top[i] else (top + added)[i] in added
  {
    assert i >= |top| ==> (top + added)[i] == added[i - |top|];
  }

  lemma HeadKept(lines: seq<string>, ps: seq<Patch>, i: nat)
    requires i < |Head(lines, ps)|
    ensures var n, x := FirstSection(lines), Head(lines, ps)[i];
            n <= |Head(lines, ps)| && if i < n then KeptLine(lines[i], x, ps) else NewLine(x, lines[..n], ps)
  {
    var n := FirstSection(lines);
    var top := ReplacedAll(lines[..n], ps);
    HeadParts(top, Added(lines, ps), i);
    if i < n {
      assert top[i] == Replaced(lines[..n][i], ps);
      ReplacedKept(lines[i], ps);
    } else {
      AddedNew(lines, ps, Head(lines, ps)[i]);
    }
  }

  /** Where the lines of the result come from, one by one: the original top-level lines in their places, blank
      ones and comments included, rewritten only for patched keys; then blank lines and missing keys; then the
      sections as they were. */
  lemma LinesKept(lines: seq<string>, ps: seq<Patch>)
    requires GoodPatches(ps) && !Clobbers(lines, ps)
    ensures var n, out := FirstSection(lines), Actual(lines, ps);
            && n <= FirstSection(out) && out[FirstSection(out)..] == lines[n..]
            && (forall i | 0 <= i < n :: KeptLine(lines[i], out[i], ps))
            && (forall i | n <= i < FirstSection(out) :: NewLine(out[i], lines[..n], ps))
  {
    HeadIsTop(lines, ps);
    var n, head := FirstSection(lines), Head(lines, ps);
    forall i | 0 <= i < |head| ensures if i < n then KeptLine(lines[i], head[i], ps) else NewLine(head[i], lines[..n], ps) {
      HeadKept(lines, ps, i);
    }
    assert |head| >= n;
  }

  // ---------------------------------------------------------------- patching twice

  lemma ReplacedTwice(lines: seq<string>, ps: seq<Patch>, x: string)
    requires GoodPatches(ps) && HeadLine(x, lines, ps)
    ensures Replaced(x, ps) == x
  {
    if i :| 0 <= i < FirstSection(lines) && x == Replaced(lines[i], ps) {
      var k := KeyOf(lines[i]);
      if k.Some? && Find(ps, k.value).Some? {
        LineReadsBack(Find(ps, k.value).value);
      }
    } else if j :| 0 <= j < |ps| && x == Line(ps[j]) {
      LineReadsBack(ps[j]);
      FindUnique(ps, ps[j]);
    } else {
      EmptyLine();
    }
  }

  /** Patching twice equals patching once. */
  lemma PatchIdempotent(lines: seq<string>, ps: seq<Patch>)
    requires GoodPatches(ps) && !Clobbers(lines, ps)
    ensures !Clobbers(Actual(lines, ps), ps)
    ensures Actual(Actual(lines, ps), ps) == Actual(lines, ps)
  {
    var out, head := Actual(lines, ps), Head(lines, ps);
    HeadIsTop(lines, ps);
    assert out[..|head|] == head;
    assert Extras(ps, head) == [] by {
      ExtrasAre(ps, head);
      if Extras(ps, head) != [] {
        var x := Extras(ps, head)[0];
        assert x in Extras(ps, head);
        var j :| 0 <= j < |ps| && x == Line(ps[j]) && !Assigned(head, ps[j].key);
        HeadAssigns(lines, ps, ps[j]);
      }
    }
    forall i | 0 <= i < |head| ensures Replaced(head[i], ps) == head[i] {
      HeadLines(lines, ps, head[i]);
      ReplacedTwice(lines, ps, head[i]);
    }
    assert ReplacedAll(head, ps) == head;
    assert out == head + out[|head|..];
  }

  // ---------------------------------------------------------------- whole files

  /** File contents in, file contents out. */
  function PatchFile(data: string, ps: seq<Patch>): string {
    Join(Actual(Split(data), ps))
  }

  lemma ActualSingleLines(lines: seq<string>, ps: seq<Patch>)
    requires GoodPatches(ps) && lines != [] && forall i | 0 <= i < |lines| :: '\n' !in lines[i]
    requires !Clobbers(lines, ps)
    ensures Actual(lines, ps) != [] && forall i | 0 <= i < |Actual(lines, ps)| :: '\n' !in Actual(lines, ps)[i]
  {
    HeadIsTop(lines, ps);
    var n, out, head := FirstSection(lines), Actual(lines, ps), Head(lines, ps);
    forall i | 0 <= i < |out| ensures '\n' !in out[i] {
      if i < |head| {
        HeadLines(lines, ps, head[i]);
        if j :| 0 <= j < n && head[i] == Replaced(lines[j], ps) {
          var k := KeyOf(lines[j]);
          if k.Some? && Find(ps, k.value).Some? {
            LineReadsBack(Find(ps, k.value).value);
          }
        } else if j :| 0 <= j < |ps| && head[i] == Line(ps[j]) {
          LineReadsBack(ps[j]);
        }
      } else {
        assert out[i] == lines[n..][i - |head|];
      }
    }
    if n > 0 { assert |ReplacedAll(lines[..n], ps)| == n; }
  }

  /** On file contents: a second edit with the same values changes no byte. */
  lemma PatchFileIdempotent(data: string, ps: seq<Patch>)
    requires GoodPatches(ps) && !Clobbers(Split(data), ps)
    ensures PatchFile(PatchFile(data, ps), ps) == PatchFile(data, ps)
  {
    var lines := Split(data);
    ActualSingleLines(lines, ps);
    SplitJoin(Actual(lines, ps));
    PatchIdempotent(lines, ps);
  }
}
