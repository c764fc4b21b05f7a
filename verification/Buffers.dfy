/** Filling byte buffers by offset, as the built-in `copy` does. */
module Buffers {
  method CopyAt<T>(buf: array<T>, at: nat, data: seq<T>)
    requires at + |data| <= buf.Length
    modifies buf
    ensures buf[..] == old(buf[..at]) + data + old(buf[at + |data|..])
  {
    var i := 0;
    while i < |data|
      invariant 0 <= i <= |data|
      invariant forall j | 0 <= j < i :: buf[at + j] == data[j]
      invariant forall j | 0 <= j < buf.Length && !(at <= j < at + i) :: buf[j] == old(buf[j])
    {
      buf[at + i] := data[i];
      i := i + 1;
    }
  }
}
