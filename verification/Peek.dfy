/** The peeking listener: it reads the start of a connection for the TLS client random and then hands the
    connection on as if nothing had been read. */
module Peek {
  import opened Buffers
  import opened Tracker
  import opened Rules

  const RECORD_HEADER := 5
  const HANDSHAKE_HEADER := 4
  const VERSION := 2
  const RANDOM := 32
  const RANDOM_OFFSET := RECORD_HEADER + HANDSHAKE_HEADER + VERSION
  const MIN_HELLO := RANDOM_OFFSET + RANDOM

  const HANDSHAKE := Byte(1, 6)
  const CLIENT_HELLO := Byte(0, 1)

  // ---------------------------------------------------------------- the client random

  function ClientRandom(s: seq<Byte>): Option<seq<Byte>> {
    if |s| < MIN_HELLO || s[0] != HANDSHAKE || s[RECORD_HEADER] != CLIENT_HELLO then None
    else Some(s[RANDOM_OFFSET..RANDOM_OFFSET + RANDOM])
  }

  /** The start of a TLS connection: a handshake record that opens with a ClientHello
      (sections 5.1 and 4.1.2 of RFC 8446), with whatever follows the random. */
  datatype Hello = Hello(recordVersion: seq<Byte>, recordLength: seq<Byte>, length: seq<Byte>, version: seq<Byte>,
                         random: seq<Byte>, rest: seq<Byte>) {
    predicate WellFormed() {
      |recordVersion| == 2 && |recordLength| == 2 && |length| == 3 && |version| == 2 && |random| == 32
    }

    function Bytes(): seq<Byte> {
      [Byte(1, 6)] + recordVersion + recordLength + [Byte(0, 1)] + length + version + random + rest
    }
  }

  /** The random of every ClientHello is found. */
  lemma HelloHasRandom(h: Hello)
    requires h.WellFormed()
    ensures ClientRandom(h.Bytes()) == Some(h.random)
  {
    var s := h.Bytes();
    assert s[RANDOM_OFFSET..RANDOM_OFFSET + RANDOM] == h.random;
  }

  /** A random is found only in a ClientHello, and it is that ClientHello's. */
  lemma RandomIsOfHello(s: seq<Byte>) returns (h: Hello)
    requires ClientRandom(s).Some?
    ensures h.WellFormed() && s == h.Bytes() && ClientRandom(s) == Some(h.random)
  {
    h := Hello(s[1..3], s[3..5], s[6..9], s[9..11], s[11..43], s[43..]);
    assert s == [s[0]] + s[1..3] + s[3..5] + [s[5]] + s[6..9] + s[9..11] + s[11..43] + s[43..];
  }

  /** Only the first bytes matter. */
  lemma RandomOfPrefix(s: seq<Byte>)
    requires |s| >= MIN_HELLO
    ensures ClientRandom(s[..MIN_HELLO]) == ClientRandom(s)
  {
    assert s[..MIN_HELLO][RANDOM_OFFSET..RANDOM_OFFSET + RANDOM] == s[RANDOM_OFFSET..RANDOM_OFFSET + RANDOM];
  }

  // ---------------------------------------------------------------- streams and reads

  /** The bytes of a connection in the pieces in which they arrive. */
  type Pieces = seq<seq<Byte>>

  function Flat(ps: Pieces): seq<Byte> {
    if ps == [] then [] else ps[0] + Flat(ps[1..])
  }

  /** One read with room for `room` bytes: what is left and what was read. */
  function Take(ps: Pieces, room: nat): (Pieces, seq<Byte>) {
    if ps == [] || room == 0 then (ps, [])
    else if |ps[0]| <= room then (ps[1..], ps[0])
    else ([ps[0][room..]] + ps[1..], ps[0][..room])
  }

  lemma TakeKeeps(ps: Pieces, room: nat)
    ensures |Take(ps, room).1| <= room
    ensures Flat(ps) == Take(ps, room).1 + Flat(Take(ps, room).0)
  {
    if ps != [] && 0 < room < |ps[0]| {
      var rest := [ps[0][room..]] + ps[1..];
      assert rest[1..] == ps[1..];
      assert ps[0] == ps[0][..room] + ps[0][room..];
    }
  }

  /** A peeked connection: bytes read ahead, how many of them were handed on, and what is still to arrive. */
  datatype Peeked = Peeked(buf: seq<Byte>, pos: nat, ps: Pieces) {
    predicate Ok() {
      pos <= |buf|
    }

    function Pending(): seq<Byte>
      requires Ok()
    {
      buf[pos..] + Flat(ps)
    }
  }

  function ReadOnce(c: Peeked, room: nat): (Peeked, seq<Byte>)
    requires c.Ok()
  {
    if c.pos < |c.buf| then
      var n := if room < |c.buf| - c.pos then room else |c.buf| - c.pos;
      (c.(pos := c.pos + n), c.buf[c.pos..c.pos + n])
    else
      (c.(ps := Take(c.ps, room).0), Take(c.ps, room).1)
  }

  lemma ReadOnceKeeps(c: Peeked, room: nat)
    requires c.Ok()
    ensures ReadOnce(c, room).0.Ok() && |ReadOnce(c, room).1| <= room
    ensures c.Pending() == ReadOnce(c, room).1 + ReadOnce(c, room).0.Pending()
  {
    var (d, got) := ReadOnce(c, room);
    if c.pos < |c.buf| {
      assert c.buf[c.pos..] == got + c.buf[d.pos..];
    } else {
      TakeKeeps(c.ps, room);
      assert c.buf[c.pos..] == [];
    }
  }

  /** Any sequence of reads, with what each had room for. */
  function Reads(c: Peeked, rooms: seq<nat>): (Peeked, seq<Byte>)
    requires c.Ok()
    decreases rooms
  {
    if rooms == [] then (c, [])
    else
      ReadOnceKeeps(c, rooms[0]);
      var (d, got) := ReadOnce(c, rooms[0]);
      var (e, more) := Reads(d, rooms[1..]);
      (e, got + more)
  }

  lemma Assoc(a: seq<Byte>, b: seq<Byte>, c: seq<Byte>)
    ensures a + (b + c) == (a + b) + c
  {
  }

  /** What was read and what is still pending make up the stream, whatever the sizes. */
  lemma {:induction false} ReadsKeep(c: Peeked, rooms: seq<nat>)
    requires c.Ok()
    ensures Reads(c, rooms).0.Ok()
    ensures c.Pending() == Reads(c, rooms).1 + Reads(c, rooms).0.Pending()
    decreases rooms
  {
    if rooms != [] {
      ReadOnceKeeps(c, rooms[0]);
      var (d, got) := ReadOnce(c, rooms[0]);
      ReadsKeep(d, rooms[1..]);
      var (e, more) := Reads(d, rooms[1..]);
      assert Reads(c, rooms) == (e, got + more);
      Assoc(got, more, e.Pending());
    }
  }

  /** Bytes and pieces still to go: every read with room makes it smaller until nothing is pending. */
  function Left(c: Peeked): nat
    requires c.Ok()
  {
    |c.buf| - c.pos + |Flat(c.ps)| + |c.ps|
  }

  lemma ReadOnceAdvances(c: Peeked, room: nat)
    requires c.Ok() && room > 0
    ensures ReadOnce(c, room).0.Ok()
    ensures Left(c) > 0 ==> Left(ReadOnce(c, room).0) < Left(c)
    ensures Left(c) == 0 ==> c.Pending() == [] && ReadOnce(c, room).0 == c
  {
    TakeKeeps(c.ps, room);
  }

  /** Enough reads with room deliver all of the stream. */
  lemma {:induction false} ReadsDeliver(c: Peeked, rooms: seq<nat>)
    requires c.Ok() && |rooms| >= Left(c) && forall i | 0 <= i < |rooms| :: rooms[i] > 0
    ensures Reads(c, rooms).1 == c.Pending()
    decreases rooms
  {
    if rooms == [] {
      assert c.Pending() == [];
    } else {
      ReadOnceKeeps(c, rooms[0]);
      ReadOnceAdvances(c, rooms[0]);
      ReadsDeliver(ReadOnce(c, rooms[0]).0, rooms[1..]);
    }
  }

  /** What `Accept` hands on for a connection that carries `stream`. */
  ghost predicate Handed(stream: seq<Byte>, c: Peeked, random: Option<seq<Byte>>) {
    |stream| >= MIN_HELLO && c.buf == stream[..MIN_HELLO] && c.pos == 0 && Flat(c.ps) == stream[MIN_HELLO..]
    && random == ClientRandom(c.buf)
  }

  /** Main result: through a peeked connection every sequence of reads returns a prefix of the original stream and
      leaves exactly its rest; enough reads return all of it; and the random is the one of the stream. */
  lemma PeekTransparent(stream: seq<Byte>, c: Peeked, random: Option<seq<Byte>>, rooms: seq<nat>)
    requires Handed(stream, c, random)
    ensures Reads(c, rooms).0.Ok() && stream == Reads(c, rooms).1 + Reads(c, rooms).0.Pending()
    ensures |rooms| >= Left(c) && (forall i | 0 <= i < |rooms| :: rooms[i] > 0) ==> Reads(c, rooms).1 == stream
    ensures random == ClientRandom(stream)
  {
    assert c.buf[c.pos..] == c.buf && stream == stream[..MIN_HELLO] + stream[MIN_HELLO..];
    ReadsKeep(c, rooms);
    if |rooms| >= Left(c) && forall i | 0 <= i < |rooms| :: rooms[i] > 0 {
      ReadsDeliver(c, rooms);
    }
    RandomOfPrefix(stream);
  }

  // ---------------------------------------------------------------- connections and listener

  /** The connection below: its stream ends where the peer closes it or the network fails. */
  class Socket {
    var ps: Pieces
    var closed: bool

    constructor (ps: Pieces)
      ensures this.ps == ps && !closed
    {
      this.ps, closed := ps, false;
    }

    method Read(b: array<Byte>, at: nat) returns (n: nat, end: bool)
      requires at <= b.Length
      modifies this`ps, b
      ensures at + n <= b.Length && (ps, b[at..at + n]) == Take(old(ps), b.Length - at)
      ensures b[..at] == old(b[..at]) && b[at + n..] == old(b[at + n..])
      ensures end <==> old(ps) == [] && at < b.Length
    {
      end := ps == [] && at < b.Length;
      var (rest, got) := Take(ps, b.Length - at);
      TakeKeeps(ps, b.Length - at);
      ps, n := rest, |got|;
      CopyAt(b, at, got);
    }

    /** Reads until `b` is full or the stream ends. */
    method ReadFull(b: array<Byte>) returns (ok: bool)
      modifies this`ps, b
      ensures ok <==> |old(Flat(ps))| >= b.Length
      ensures ok ==> old(Flat(ps)) == b[..] + Flat(ps)
    {
      var n, end := 0, b.Length == 0;
      while n < b.Length && !end
        invariant n <= b.Length
        invariant old(Flat(ps)) == b[..n] + Flat(ps)
        invariant end && n < b.Length ==> ps == []
        decreases b.Length - n, |ps|, !end
      {
        ghost var read := b[..n];
        TakeKeeps(ps, b.Length - n);
        var k;
        k, end := Read(b, n);
        assert b[..n + k] == read + b[n..n + k];
        Assoc(read, b[n..n + k], Flat(ps));
        n := n + k;
      }
      ok := n == b.Length;
    }
  }

  /** A connection whose first bytes were read ahead. */
  class RandomConn {
    const conn: Socket
    const buf: seq<Byte>
    var pos: nat
    const random: Option<seq<Byte>>

    ghost function View(): Peeked
      reads this, conn
    {
      Peeked(buf, pos, conn.ps)
    }

    constructor (conn: Socket, buf: seq<Byte>, random: Option<seq<Byte>>)
      ensures this.conn == conn && this.buf == buf && pos == 0 && this.random == random
    {
      this.conn, this.buf, pos, this.random := conn, buf, 0, random;
    }

    method Read(b: array<Byte>) returns (n: nat, end: bool)
      requires View().Ok()
      modifies this`pos, conn`ps, b
      ensures n <= b.Length && (View(), b[..n]) == ReadOnce(old(View()), b.Length)
      ensures View().Ok() && old(View().Pending()) == b[..n] + View().Pending()
      ensures b[n..] == old(b[n..])
      ensures end <==> old(pos) == |buf| && old(conn.ps) == [] && b.Length > 0
      ensures end ==> n == 0 && View().Pending() == []
    {
      ReadOnceKeeps(View(), b.Length);
      if pos < |buf| {
        n := if b.Length < |buf| - pos then b.Length else |buf| - pos;
        CopyAt(b, 0, buf[pos..pos + n]);
        assert b[..n] == buf[pos..pos + n];
        pos := pos + n;
        return n, false;
      }
      n, end := conn.Read(b, 0);
      assert b[..n] == b[0..n];
    }
  }

  class RandomListener {
    /** The connections that will arrive; then the listener below fails. */
    var queue: seq<Socket>

    ghost predicate Valid()
      reads this
    {
      forall i, j | 0 <= i < j < |queue| :: queue[i] != queue[j]
    }

    constructor (queue: seq<Socket>)
      requires forall i, j | 0 <= i < j < |queue| :: queue[i] != queue[j]
      ensures Valid() && this.queue == queue
    {
      this.queue := queue;
    }

    /** Skips and closes the connections that end too early; the first other one is handed on with its stream intact. */
    method Accept() returns (r: Option<RandomConn>, ghost k: nat)
      requires Valid()
      modifies this, set s | s in queue
      ensures Valid() && k <= |old(queue)|
      ensures forall i | 0 <= i < k :: |old(Flat(queue[i].ps))| < MIN_HELLO && old(queue)[i].closed
      ensures forall i | k <= i < |old(queue)| :: old(queue)[i].closed == old(queue[i].closed)
      ensures forall i | k < i < |old(queue)| :: old(queue)[i].ps == old(queue[i].ps)
      ensures r.None? <==> k == |old(queue)|
      ensures r.None? ==> queue == []
      ensures r.Some? ==> r.value.conn == old(queue)[k] && queue == old(queue)[k + 1..]
                          && Handed(old(Flat(queue[k].ps)), r.value.View(), r.value.random)
    {
      k := 0;
      while queue != []
        invariant k <= |old(queue)| && queue == old(queue)[k..]
        invariant forall i | 0 <= i < k :: |old(Flat(queue[i].ps))| < MIN_HELLO && old(queue)[i].closed
        invariant forall i | k <= i < |old(queue)| ::
                    old(queue)[i].closed == old(queue[i].closed) && old(queue)[i].ps == old(queue[i].ps)
        decreases queue
      {
        var conn := queue[0];
        assert conn == old(queue)[k];
        queue := queue[1..];
        var b := new Byte[MIN_HELLO](i => HANDSHAKE);
        var ok := conn.ReadFull(b);
        if ok {
          var c := new RandomConn(conn, b[..], ClientRandom(b[..]));
          return Some(c), k;
        }
        conn.closed := true;
        k := k + 1;
      }
      r := None;
    }
  }
}
