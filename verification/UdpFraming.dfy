/** The byte formats of the UDP stream: frames from the client and frames to it, big-endian fields. */
module UdpFraming {
  import opened Buffers
  import opened Tracker

  type Byte = b: nat | b < 256
  type U16 = n: nat | n < 0x1_0000
  type Ip = s: seq<Byte> | |s| == 16 witness [0, 0, 0, 0, 0, 0, 0, 0, 0, 0, 0, 0, 0, 0, 0, 0]

  const NoIp: Ip := [0, 0, 0, 0, 0, 0, 0, 0, 0, 0, 0, 0, 0, 0, 0, 0]

  function PutU16(n: U16): (r: seq<Byte>)
    ensures |r| == 2
  {
    [n / 256, n % 256]
  }

  function GetU16(s: seq<Byte>): U16
    requires |s| == 2
  {
    (s[0] as int) * 256 + s[1] as int
  }

  /** Like the original's conversion, this keeps the low 32 bits. */
  function PutU32(n: nat): (r: seq<Byte>)
    ensures |r| == 4
  {
    [n / 0x100_0000 % 256, n / 0x1_0000 % 256, n / 256 % 256, n % 256]
  }

  function GetU32(s: seq<Byte>): nat
    requires |s| == 4
  {
    (s[0] as int) * 0x100_0000 + (s[1] as int) * 0x1_0000 + (s[2] as int) * 256 + s[3] as int
  }

  lemma GetPut16(n: U16)
    ensures GetU16(PutU16(n)) == n
  {
  }

  lemma PutGet16(s: seq<Byte>)
    requires |s| == 2
    ensures PutU16(GetU16(s)) == s
  {
    var a, b: int := s[0], s[1];
    assert (a * 256 + b) / 256 == a;
  }

  lemma Quotients(n: nat)
    ensures n / 0x1_0000 == n / 256 / 256 && n / 0x100_0000 == n / 256 / 256 / 256
  {
  }

  /** Four digits to base 256 and what is above them. */
  lemma FourDigits(n: nat, a: nat, b: nat, c: nat, d: nat)
    requires a == n / 256 && b == a / 256 && c == b / 256 && d == c / 256
    ensures n == 0x1_0000_0000 * d + (c % 256) * 0x100_0000 + (b % 256) * 0x1_0000 + (a % 256) * 256 + n % 256
  {
    assert n == 256 * a + n % 256;
    assert a == 256 * b + a % 256;
    assert b == 256 * c + b % 256;
    assert c == 256 * d + c % 256;
  }

  lemma Low32(n: nat, d: nat, r: nat)
    requires n == 0x1_0000_0000 * d + r && r < 0x1_0000_0000
    ensures n % 0x1_0000_0000 == r
  {
  }

  lemma GetPut32(n: nat)
    ensures GetU32(PutU32(n)) == n % 0x1_0000_0000
  {
    var a := n / 256;
    var b := a / 256;
    var c := b / 256;
    Quotients(n);
    FourDigits(n, a, b, c, c / 256);
    Low32(n, c / 256, (c % 256) * 0x100_0000 + (b % 256) * 0x1_0000 + (a % 256) * 256 + n % 256);
  }

  lemma PutGet32(s: seq<Byte>)
    requires |s| == 4
    ensures PutU32(GetU32(s)) == s
  {
    var n := GetU32(s);
    var a, b, c: int := s[0], s[1], s[2];
    assert n / 256 == a * 0x1_0000 + b * 256 + c;
    assert n / 0x1_0000 == a * 256 + b;
    assert n / 0x100_0000 == a;
  }

  datatype Frame = Frame(src: Ip, srcPort: U16, dst: Ip, dstPort: U16, payload: seq<Byte>)

  datatype Error = EndOfStream | UnexpectedEnd | TooShort | Truncated
  datatype Read = Got(f: Frame, rest: seq<Byte>) | Failed(e: Error)

  function BodyOf(f: Frame, app: seq<Byte>): seq<Byte>
    requires |app| < 256
  {
    f.src + PutU16(f.srcPort) + f.dst + PutU16(f.dstPort) + [|app|] + app + f.payload
  }

  predicate Fits(f: Frame, app: seq<Byte>) {
    |app| < 256 && 37 + |app| + |f.payload| < 0x1_0000_0000
  }

  /** A frame as the client sends it, with an application name that the endpoint skips. */
  function Outgoing(f: Frame, app: seq<Byte>): seq<Byte>
    requires |app| < 256
  {
    PutU32(37 + |app| + |f.payload|) + BodyOf(f, app)
  }

  /** `io.ReadFull` on a stream: a stream that ends before the first byte is a clean end. */
  function Short(s: seq<Byte>): Error {
    if s == [] then EndOfStream else UnexpectedEnd
  }

  function NameEnd(body: seq<Byte>): nat
    requires |body| >= 37
  {
    37 + body[36] as int
  }

  function FrameOf(body: seq<Byte>): Frame
    requires |body| >= 37 && |body| >= NameEnd(body)
  {
    Frame(body[0..16], GetU16(body[16..18]), body[18..34], GetU16(body[34..36]), body[NameEnd(body)..])
  }

  /** One call of `readOutgoing` on the remaining stream. */
  function ReadOutgoing(s: seq<Byte>): Read {
    if |s| < 4 then Failed(Short(s))
    else
      var n := GetU32(s[..4]);
      if |s| - 4 < n then Failed(Short(s[4..]))
      else
        var body := s[4..4 + n];
        if n < 37 then Failed(TooShort)
        else if n < NameEnd(body) then Failed(Truncated)
        else Got(FrameOf(body), s[4 + n..])
  }

  lemma BodyParts(f: Frame, app: seq<Byte>)
    requires |app| < 256
    ensures var b := BodyOf(f, app);
            && |b| == 37 + |app| + |f.payload|
            && b[0..16] == f.src && b[16..18] == PutU16(f.srcPort) && b[18..34] == f.dst && b[34..36] == PutU16(f.dstPort)
            && b[36] == |app| && b[37 + |app|..] == f.payload
  {
  }

  lemma ReadsBody(head: seq<Byte>, body: seq<Byte>, rest: seq<Byte>)
    requires |head| == 4 && GetU32(head) == |body| && |body| >= 37 && |body| >= NameEnd(body)
    ensures ReadOutgoing(head + body + rest) == Got(FrameOf(body), rest)
  {
    var s, n := head + body + rest, |body|;
    assert s[..4] == head && s[4..4 + n] == body && s[4 + n..] == rest;
  }

  lemma BodyReads(f: Frame, app: seq<Byte>)
    requires |app| < 256
    ensures var b := BodyOf(f, app); |b| >= NameEnd(b) && FrameOf(b) == f
  {
    BodyParts(f, app);
    GetPut16(f.srcPort);
    GetPut16(f.dstPort);
  }

  /** Reading a well-formed frame gives the frame back and consumes exactly its bytes. */
  lemma FrameRoundTrip(f: Frame, app: seq<Byte>, rest: seq<Byte>)
    requires Fits(f, app)
    ensures ReadOutgoing(Outgoing(f, app) + rest) == Got(f, rest)
    ensures |Outgoing(f, app)| == 4 + (37 + |app| + |f.payload|)
  {
    var n, body := 37 + |app| + |f.payload|, BodyOf(f, app);
    GetPut32(n);
    BodyReads(f, app);
    ReadsBody(PutU32(n), body, rest);
  }

  lemma BodyRebuilt(body: seq<Byte>)
    requires |body| >= 37 && |body| >= NameEnd(body)
    ensures body == BodyOf(FrameOf(body), body[37..NameEnd(body)])
  {
    PutGet16(body[16..18]);
    PutGet16(body[34..36]);
    var app, tail := body[37..NameEnd(body)], body[NameEnd(body)..];
    assert body[37..] == app + tail;
    assert body == body[0..16] + body[16..18] + body[18..34] + body[34..36] + [body[36]] + body[37..];
  }

  /** Conversely, whatever is read was a frame: the accepted bytes are its encoding under some name. */
  lemma FrameSound(s: seq<Byte>) returns (app: seq<Byte>)
    requires ReadOutgoing(s).Got?
    ensures Fits(ReadOutgoing(s).f, app) && s == Outgoing(ReadOutgoing(s).f, app) + ReadOutgoing(s).rest
  {
    var n := GetU32(s[..4]);
    var body := s[4..4 + n];
    app := body[37..NameEnd(body)];
    BodyRebuilt(body);
    BodyParts(FrameOf(body), app);
    PutGet32(s[..4]);
    assert s == s[..4] + body + s[4 + n..];
  }

  /** Bytes are accepted if and only if they begin with a well-formed frame. */
  lemma AcceptedIff(s: seq<Byte>)
    ensures ReadOutgoing(s).Got? <==> exists f, app, rest :: Fits(f, app) && s == Outgoing(f, app) + rest
  {
    if ReadOutgoing(s).Got? {
      var app := FrameSound(s);
      assert Fits(ReadOutgoing(s).f, app) && s == Outgoing(ReadOutgoing(s).f, app) + ReadOutgoing(s).rest;
    }
    if f, app, rest :| Fits(f, app) && s == Outgoing(f, app) + rest {
      FrameRoundTrip(f, app, rest);
    }
  }

  predicate CutShort(e: Error) {
    e == EndOfStream || e == UnexpectedEnd
  }

  /** A malformed frame is malformed whatever follows. */
  lemma MalformedStays(s: seq<Byte>, more: seq<Byte>)
    requires ReadOutgoing(s).Failed? && !CutShort(ReadOutgoing(s).e)
    ensures ReadOutgoing(s + more) == ReadOutgoing(s)
  {
    var n := GetU32(s[..4]);
    assert (s + more)[..4] == s[..4] && (s + more)[4..4 + n] == s[4..4 + n];
  }

  /** A frame cut short is so only because bytes are missing: enough of them give a frame or show it malformed. */
  lemma CutShortEnds(s: seq<Byte>) returns (more: seq<Byte>)
    requires ReadOutgoing(s).Failed? && CutShort(ReadOutgoing(s).e)
    ensures ReadOutgoing(s + more).Got? || !CutShort(ReadOutgoing(s + more).e)
  {
    if |s| < 4 {
      more := Zeros(4 - |s|) + Zeros(0x1_0000_0000);
    } else {
      more := Zeros(GetU32(s[..4]));
    }
    var t := s + more;
    assert |s| >= 4 ==> t[..4] == s[..4];
    U32Below(t[..4]);
  }

  lemma U32Below(s: seq<Byte>)
    requires |s| == 4
    ensures GetU32(s) < 0x1_0000_0000
  {
  }

  /** The stream ends cleanly if and only if it ends between reads: before a frame, or right after a length. */
  lemma CleanEndIff(s: seq<Byte>)
    ensures ReadOutgoing(s) == Failed(EndOfStream) <==> s == [] || (|s| == 4 && GetU32(s) > 0)
  {
    if |s| >= 4 {
      assert |s| == 4 ==> s[..4] == s;
    }
  }

  function AllOutgoing(fs: seq<Frame>, apps: seq<seq<Byte>>): seq<Byte>
    requires |fs| == |apps| && forall i | 0 <= i < |fs| :: |apps[i]| < 256
  {
    if fs == [] then [] else Outgoing(fs[0], apps[0]) + AllOutgoing(fs[1..], apps[1..])
  }

  /** All frames up to the first error. */
  function ReadAll(s: seq<Byte>): (seq<Frame>, Error)
    decreases |s|
  {
    match ReadOutgoing(s)
    case Failed(e) => ([], e)
    case Got(f, rest) =>
      var (fs, e) := ReadAll(rest);
      ([f] + fs, e)
  }

  /** The read loop of a UDP stream. */
  method Drain(stream: seq<Byte>) returns (fs: seq<Frame>, e: Error)
    ensures (fs, e) == ReadAll(stream)
  {
    fs := [];
    var s := stream;
    assert fs + ReadAll(s).0 == ReadAll(s).0;
    while true
      invariant ReadAll(stream) == (fs + ReadAll(s).0, ReadAll(s).1)
      decreases |s|
    {
      match ReadOutgoing(s)
      case Failed(err) =>
        assert fs + [] == fs;
        return fs, err;
      case Got(f, rest) =>
        assert fs + ([f] + ReadAll(rest).0) == fs + [f] + ReadAll(rest).0;
        fs := fs + [f];
        s := rest;
    }
  }

  /** Main result: any list of well-formed frames is read back exactly, and then the stream ends cleanly. */
  lemma {:induction false} StreamRoundTrip(fs: seq<Frame>, apps: seq<seq<Byte>>)
    requires |fs| == |apps| && forall i | 0 <= i < |fs| :: |apps[i]| < 256 && Fits(fs[i], apps[i])
    ensures ReadAll(AllOutgoing(fs, apps)) == (fs, EndOfStream)
  {
    if fs != [] {
      StreamRoundTrip(fs[1..], apps[1..]);
      FrameRoundTrip(fs[0], apps[0], AllOutgoing(fs[1..], apps[1..]));
      assert fs == [fs[0]] + fs[1..];
    }
  }

  // ---------------------------------------------------------------- frames to the client

  /** The 16-byte form of an address; a missing one leaves zeros. */
  function To16(ip: Option<Ip>): Ip {
    if ip.Some? then ip.value else NoIp
  }

  function Incoming(src: Ip, srcPort: U16, dst: Ip, dstPort: U16, payload: seq<Byte>): seq<Byte> {
    PutU32(36 + |payload|) + src + PutU16(srcPort) + dst + PutU16(dstPort) + payload
  }

  method WriteIncoming(src: Option<Ip>, srcPort: U16, dst: Option<Ip>, dstPort: U16, payload: seq<Byte>)
    returns (out: seq<Byte>)
    ensures out == Incoming(To16(src), srcPort, To16(dst), dstPort, payload)
  {
    var n := |payload|;
    var buf := new Byte[40 + n](i => 0);
    assert buf[..] == Zeros(40 + n);
    CopyAt(buf, 0, PutU32(36 + n));
    assert buf[..] == PutU32(36 + n) + Zeros(36 + n);
    CopyIp(buf, 4, src);
    assert buf[..] == PutU32(36 + n) + To16(src) + Zeros(20 + n);
    CopyAt(buf, 20, PutU16(srcPort));
    assert buf[..] == PutU32(36 + n) + To16(src) + PutU16(srcPort) + Zeros(18 + n);
    CopyIp(buf, 22, dst);
    assert buf[..] == PutU32(36 + n) + To16(src) + PutU16(srcPort) + To16(dst) + Zeros(2 + n);
    CopyAt(buf, 38, PutU16(dstPort));
    CopyAt(buf, 40, payload);
    out := buf[..];
  }

  ghost function Zeros(n: nat): seq<Byte> {
    seq(n, i => 0)
  }

  /** Copies an address; a missing one copies nothing. */
  method CopyIp(buf: array<Byte>, at: nat, ip: Option<Ip>)
    requires at + 16 <= buf.Length && buf[at..at + 16] == NoIp
    modifies buf
    ensures buf[..] == old(buf[..at]) + To16(ip) + old(buf[at + 16..])
  {
    if ip.Some? {
      CopyAt(buf, at, ip.value);
    }
  }

  datatype Arrival = Arrival(length: nat, src: Ip, srcPort: U16, dst: Ip, dstPort: U16, payload: seq<Byte>)

  /** A reader of the incoming format, field by field. */
  function ReadIncoming(s: seq<Byte>): Option<Arrival> {
    if |s| < 40 then None
    else Some(Arrival(GetU32(s[0..4]), s[4..20], GetU16(s[20..22]), s[22..38], GetU16(s[38..40]), s[40..]))
  }

  lemma IncomingParts(head: seq<Byte>, src: Ip, p: seq<Byte>, dst: Ip, q: seq<Byte>, payload: seq<Byte>)
    requires |head| == 4 && |p| == 2 && |q| == 2
    ensures var s := head + src + p + dst + q + payload;
            && |s| == 40 + |payload| && s[0..4] == head && s[4..20] == src && s[20..22] == p
            && s[22..38] == dst && s[38..40] == q && s[40..] == payload
  {
  }

  /** What is written decodes to the same fields, and the length field is right exactly when it fits 32 bits. */
  lemma IncomingRoundTrip(src: Ip, srcPort: U16, dst: Ip, dstPort: U16, payload: seq<Byte>)
    ensures ReadIncoming(Incoming(src, srcPort, dst, dstPort, payload))
         == Some(Arrival((36 + |payload|) % 0x1_0000_0000, src, srcPort, dst, dstPort, payload))
    ensures (36 + |payload|) % 0x1_0000_0000 == 36 + |payload| <==> 36 + |payload| < 0x1_0000_0000
    ensures |Incoming(src, srcPort, dst, dstPort, payload)| == 4 + (36 + |payload|)
  {
    IncomingParts(PutU32(36 + |payload|), src, PutU16(srcPort), dst, PutU16(dstPort), payload);
    GetPut32(36 + |payload|);
    GetPut16(srcPort);
    GetPut16(dstPort);
  }
}
