/** Basic credentials: the decoded text is split at its first colon (section 2 of RFC 7617). */
module Credentials {
  import opened Tracker

  /** Length of the longest prefix without `c`. */
  function Upto(s: string, c: char): (n: nat)
    ensures n <= |s|
    ensures c !in s[..n]
    ensures n < |s| ==> s[n] == c
  {
    if s == [] || s[0] == c then 0
    else
      var n := 1 + Upto(s[1..], c);
      assert s[..n] == [s[0]] + s[1..][..n - 1];
      n
  }

  /** `strings.SplitN(decoded, ":", 2)`, as user name and password. */
  function SplitBasic(decoded: string): (r: Option<(string, string)>)
    ensures r.None? <==> ':' !in decoded
    ensures r.Some? ==> ':' !in r.value.0 && decoded == r.value.0 + ":" + r.value.1
  {
    var n := Upto(decoded, ':');
    if n < |decoded| then Some((decoded[..n], decoded[n + 1..]))
    else
      assert decoded[..n] == decoded;
      None
  }

  lemma {:induction false} UptoPrefix(a: string, c: char, rest: string)
    requires c !in a
    ensures Upto(a + [c] + rest, c) == |a|
  {
    if a != [] {
      UptoPrefix(a[1..], c, rest);
      assert (a + [c] + rest)[1..] == a[1..] + [c] + rest;
    }
  }

  /** Joining a colon-free name with any text is undone by the split. */
  lemma SplitJoin(user: string, rest: string)
    requires ':' !in user
    ensures SplitBasic(user + ":" + rest) == Some((user, rest))
  {
    UptoPrefix(user, ':', rest);
    var s := user + ":" + rest;
    assert s[..|user|] == user && s[|user| + 1..] == rest;
  }

  /** So such keys are injective. */
  lemma JoinInjective(u: string, r: string, v: string, q: string)
    requires ':' !in u && ':' !in v && u + ":" + r == v + ":" + q
    ensures u == v && r == q
  {
    SplitJoin(u, r);
    SplitJoin(v, q);
  }
}
