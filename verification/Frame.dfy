/**
 The length-prefixed frame format of the wire: a 4-byte big-endian length followed by that
 many payload bytes. `Parse` and `Stream` are the pure reading of a frame stream; `ReadFrame`
 and `WriteFrame` are the buffer-filling loops of the server, proved against them.
 */
module Frame {
  import opened Wrappers

  newtype byte = x: int | 0 <= x < 0x100

  const MAX_FRAME_SIZE: nat := 0x10_0000
  const TWO_TO_THE_32: nat := 0x1_0000_0000

  /** EOF and Broken (a reset, a deadline) come from the connection; the others from ReadFrame. */
  datatype Fault = EOF | UnexpectedEOF | TooLarge(declared: nat) | Broken

  datatype Outcome = Payload(bytes: seq<byte>) | Failed(fault: Fault)

  // ---------- the format ----------

  /** The `k` low-order bytes of `n`, most significant first. */
  function BigEndian(n: nat, k: nat): (h: seq<byte>)
    ensures |h| == k
    decreases n, k
  {
    if k == 0 then [] else BigEndian(n / 0x100, k - 1) + [(n % 0x100) as byte]
  }

  function BigEndianValue(h: seq<byte>): nat {
    if h == [] then 0 else BigEndianValue(h[..|h| - 1]) * 0x100 + h[|h| - 1] as nat
  }

  function Power256(k: nat): nat {
    if k == 0 then 1 else 0x100 * Power256(k - 1)
  }

  lemma {:induction false} BigEndianRoundTrip(n: nat, k: nat)
    requires n < Power256(k)
    ensures BigEndianValue(BigEndian(n, k)) == n
  {
    if k == 0 {
    } else {
      BigEndianRoundTrip(n / 0x100, k - 1);
      assert BigEndian(n, k)[..k - 1] == BigEndian(n / 0x100, k - 1);
    }
  }

  function Header(n: nat): (h: seq<byte>)
    ensures |h| == 4
  {
    BigEndian(n, 4)
  }

  lemma HeaderRoundTrip(n: nat)
    requires n < TWO_TO_THE_32
    ensures BigEndianValue(Header(n)) == n
  {
    assert Power256(4) == TWO_TO_THE_32;
    BigEndianRoundTrip(n, 4);
  }

  function Encode(payload: seq<byte>): (f: seq<byte>)
    requires |payload| <= MAX_FRAME_SIZE
  {
    Header(|payload|) + payload
  }

  predicate AllFit(payloads: seq<seq<byte>>) {
    forall i :: 0 <= i < |payloads| ==> |payloads[i]| <= MAX_FRAME_SIZE
  }

  function Stream(payloads: seq<seq<byte>>): (s: seq<byte>)
    requires AllFit(payloads)
  {
    if payloads == [] then [] else Encode(payloads[0]) + Stream(payloads[1..])
  }

  /** What an end of input means when some, but not all, of the wanted bytes had arrived. */
  function Cut(tail: Fault): Fault {
    if tail.EOF? then UnexpectedEOF else tail
  }

  /** One frame off the front of `s`, where `tail` is what the connection reports after `s`. */
  function Parse(s: seq<byte>, tail: Fault): (r: (Outcome, seq<byte>))
  {
    if s == [] then (Failed(tail), [])
    else if |s| < 4 then (Failed(Cut(tail)), [])
    else
      var n, body := BigEndianValue(s[..4]), s[4..];
      if n > MAX_FRAME_SIZE then (Failed(TooLarge(n)), body)
      else if |body| < n then (Failed(Cut(tail)), [])
      else (Payload(body[..n]), body[n..])
  }

  /** Frames read until the first failure, and that failure. */
  function ReadAll(s: seq<byte>, tail: Fault): (r: (seq<seq<byte>>, Fault))
    decreases |s|
  {
    var (outcome, rest) := Parse(s, tail);
    match outcome
    case Failed(fault) => ([], fault)
    case Payload(p) =>
      var (ps, fault) := ReadAll(rest, tail);
      ([p] + ps, fault)
  }

  // ---------- properties of the format ----------

  /** A frame at the front of the input is read back whole, and nothing after it is touched. */
  lemma ParseEncoded(payload: seq<byte>, rest: seq<byte>, tail: Fault)
    requires |payload| <= MAX_FRAME_SIZE
    ensures Parse(Encode(payload) + rest, tail) == (Payload(payload), rest)
  {
    var s := Encode(payload) + rest;
    HeaderRoundTrip(|payload|);
    assert s[..4] == Header(|payload|);
    assert s[4..] == payload + rest;
  }

  /** A proper prefix of a frame is never read as a frame: only its emptiness tells a clean end. */
  lemma ParsePartial(payload: seq<byte>, c: nat, tail: Fault)
    requires |payload| <= MAX_FRAME_SIZE && c < |Encode(payload)|
    ensures Parse(Encode(payload)[..c], tail) == (Failed(if c == 0 then tail else Cut(tail)), [])
  {
    var s := Encode(payload)[..c];
    if c >= 4 {
      HeaderRoundTrip(|payload|);
      assert s[..4] == Header(|payload|);
    }
  }

  lemma Assoc<T>(a: seq<T>, b: seq<T>, c: seq<T>)
    ensures (a + b) + c == a + (b + c)
  {
  }

  lemma TakeAppend<T>(a: seq<T>, b: seq<T>, c: nat)
    requires |a| <= c <= |a| + |b|
    ensures (a + b)[..c] == a + b[..c - |a|]
  {
  }

  lemma {:induction false} StreamSplit(ps: seq<seq<byte>>, qs: seq<seq<byte>>)
    requires AllFit(ps) && AllFit(qs)
    ensures AllFit(ps + qs) && Stream(ps + qs) == Stream(ps) + Stream(qs)
  {
    if ps == [] {
      assert ps + qs == qs;
    } else {
      assert (ps + qs)[0] == ps[0] && (ps + qs)[1..] == ps[1..] + qs;
      StreamSplit(ps[1..], qs);
      Assoc(Encode(ps[0]), Stream(ps[1..]), Stream(qs));
    }
  }

  /** What repeated ReadFrame makes of a stream cut at byte `c`: `k` payloads, then `fault`. */
  ghost predicate CutAfter(ps: seq<seq<byte>>, c: nat, k: nat, tail: Fault, fault: Fault)
    requires AllFit(ps)
  {
    && k <= |ps|
    && |Stream(ps[..k])| <= c
    && (k < |ps| ==> c < |Stream(ps[..k + 1])|)
    && fault == if |Stream(ps[..k])| == c then tail else Cut(tail)
  }

  lemma ReadAllEncoded(payload: seq<byte>, rest: seq<byte>, tail: Fault)
    requires |payload| <= MAX_FRAME_SIZE
    ensures var (got, fault) := ReadAll(rest, tail);
            ReadAll(Encode(payload) + rest, tail) == ([payload] + got, fault)
  {
    ParseEncoded(payload, rest, tail);
  }

  lemma ReadAllPartial(payload: seq<byte>, c: nat, tail: Fault)
    requires |payload| <= MAX_FRAME_SIZE && c < |Encode(payload)|
    ensures ReadAll(Encode(payload)[..c], tail) == ([], if c == 0 then tail else Cut(tail))
  {
    ParsePartial(payload, c, tail);
  }

  lemma TakeCons<T>(s: seq<T>, k: nat)
    requires k < |s|
    ensures s[..k + 1] == [s[0]] + s[1..][..k]
  {
  }

  lemma StreamTake(ps: seq<seq<byte>>, k: nat)
    requires AllFit(ps) && k < |ps|
    ensures AllFit(ps[1..]) && AllFit(ps[..k + 1])
    ensures Stream(ps[..k + 1]) == Encode(ps[0]) + Stream(ps[1..][..k])
  {
    assert ps[..k + 1][0] == ps[0] && ps[..k + 1][1..] == ps[1..][..k];
  }

  lemma CutAfterCons(ps: seq<seq<byte>>, c: nat, k: nat, tail: Fault, fault: Fault)
    requires ps != [] && AllFit(ps) && |Encode(ps[0])| <= c
    requires CutAfter(ps[1..], c - |Encode(ps[0])|, k, tail, fault)
    ensures CutAfter(ps, c, k + 1, tail, fault)
  {
    StreamTake(ps, k);
    if k + 1 < |ps| {
      StreamTake(ps, k + 1);
    }
  }

  /** Reading the first `c` bytes of a stream gives its wholly contained payloads, then `tail`. */
  ghost predicate ReadsTo(ps: seq<seq<byte>>, c: nat, tail: Fault)
    requires AllFit(ps) && c <= |Stream(ps)|
  {
    var (got, fault) := ReadAll(Stream(ps)[..c], tail);
    |got| <= |ps| && got == ps[..|got|] && CutAfter(ps, c, |got|, tail, fault)
  }

  lemma CutInFirst(ps: seq<seq<byte>>, c: nat, tail: Fault)
    requires ps != [] && AllFit(ps) && c < |Encode(ps[0])|
    ensures ReadsTo(ps, c, tail)
  {
    assert Stream(ps)[..c] == Encode(ps[0])[..c];
    ReadAllPartial(ps[0], c, tail);
    StreamTake(ps, 0);
  }

  lemma ReadAllFirst(ps: seq<seq<byte>>, c: nat, tail: Fault)
    requires ps != [] && AllFit(ps) && |Encode(ps[0])| <= c <= |Stream(ps)|
    ensures var (got, fault) := ReadAll(Stream(ps[1..])[..c - |Encode(ps[0])|], tail);
            ReadAll(Stream(ps)[..c], tail) == ([ps[0]] + got, fault)
  {
    TakeAppend(Encode(ps[0]), Stream(ps[1..]), c);
    ReadAllEncoded(ps[0], Stream(ps[1..])[..c - |Encode(ps[0])|], tail);
  }

  lemma CutAfterFirst(ps: seq<seq<byte>>, c: nat, tail: Fault)
    requires ps != [] && AllFit(ps) && |Encode(ps[0])| <= c <= |Stream(ps)|
    requires ReadsTo(ps[1..], c - |Encode(ps[0])|, tail)
    ensures ReadsTo(ps, c, tail)
  {
    ReadAllFirst(ps, c, tail);
    var (got, fault) := ReadAll(Stream(ps[1..])[..c - |Encode(ps[0])|], tail);
    CutAfterCons(ps, c, |got|, tail, fault);
    TakeCons(ps, |got|);
  }

  /** Cutting a stream anywhere yields exactly the wholly contained payloads, then the end of
      input: clean if and only if the cut is on a frame boundary. */
  lemma {:induction false} TruncatedStream(ps: seq<seq<byte>>, c: nat, tail: Fault)
    requires AllFit(ps) && c <= |Stream(ps)|
    ensures ReadsTo(ps, c, tail)
  {
    if ps == [] {
      assert ps[..0] == [];
    } else if c < |Encode(ps[0])| {
      CutInFirst(ps, c, tail);
    } else {
      TruncatedStream(ps[1..], c - |Encode(ps[0])|, tail);
      CutAfterFirst(ps, c, tail);
    }
  }

  /** Distinct payload lists have distinct streams. */
  lemma StreamInjective(ps: seq<seq<byte>>, qs: seq<seq<byte>>)
    requires AllFit(ps) && AllFit(qs) && Stream(ps) == Stream(qs)
    ensures ps == qs
  {
    WholeStream(ps, EOF);
    WholeStream(qs, EOF);
  }

  lemma {:induction false} WholeStream(ps: seq<seq<byte>>, tail: Fault)
    requires AllFit(ps)
    ensures ReadAll(Stream(ps), tail) == (ps, tail)
  {
    if ps == [] {
    } else {
      ReadAllEncoded(ps[0], Stream(ps[1..]), tail);
      WholeStream(ps[1..], tail);
      assert ps == [ps[0]] + ps[1..];
    }
  }

  // ---------- the format, byte by byte ----------

  lemma ByteOf(n: nat)
    requires n < TWO_TO_THE_32
    ensures n / 0x100 / 0x100 / 0x100 == n / 0x100_0000 && n / 0x100 / 0x100 == n / 0x1_0000
    ensures n / 0x100_0000 < 0x100
  {
  }

  /** A header is the length in four bytes, the most significant first. */
  lemma HeaderBytes(n: nat)
    requires n < TWO_TO_THE_32
    ensures Header(n) == [(n / 0x100_0000) as byte, (n / 0x1_0000 % 0x100) as byte, (n / 0x100 % 0x100) as byte,
                          (n % 0x100) as byte]
  {
    ByteOf(n);
    var a, b, c := n / 0x100, n / 0x100 / 0x100, n / 0x100 / 0x100 / 0x100;
    assert BigEndian(c, 1) == [(c % 0x100) as byte] by {
      assert BigEndian(c / 0x100, 0) == [];
    }
    assert BigEndian(b, 2) == [(c % 0x100) as byte, (b % 0x100) as byte];
    assert BigEndian(a, 3) == [(c % 0x100) as byte, (b % 0x100) as byte, (a % 0x100) as byte];
  }

  /** A frame is that header and then the payload. */
  lemma FrameBytes(payload: seq<byte>)
    requires |payload| <= MAX_FRAME_SIZE
    ensures var n, f := |payload|, Encode(payload);
            && |f| == 4 + n && f[4..] == payload
            && f[..4] == [0, (n / 0x1_0000) as byte, (n / 0x100 % 0x100) as byte, (n % 0x100) as byte]
  {
    HeaderBytes(|payload|);
  }

  /** Nothing longer than 1 MiB is ever read back as a payload. */
  lemma ParsedIsBounded(s: seq<byte>, tail: Fault)
    ensures var outcome := Parse(s, tail).0; outcome.Payload? ==> |outcome.bytes| <= 1048576
  {
  }

  lemma {:induction false} ReadIsBounded(s: seq<byte>, tail: Fault)
    ensures forall i :: 0 <= i < |ReadAll(s, tail).0| ==> |ReadAll(s, tail).0[i]| <= 1048576
    decreases |s|
  {
    ParsedIsBounded(s, tail);
    var (outcome, rest) := Parse(s, tail);
    if outcome.Payload? {
      ReadIsBounded(rest, tail);
    }
  }

  /** Anything up to that length is. */
  lemma UpToLimitIsRead(payload: seq<byte>, rest: seq<byte>, tail: Fault)
    requires |payload| <= 1048576
    ensures Parse(Encode(payload) + rest, tail) == (Payload(payload), rest)
  {
    ParseEncoded(payload, rest, tail);
  }

  /** A header that declares more is refused once it is read, whatever follows it. */
  lemma OverSizeIsRefused(n: nat, rest: seq<byte>, tail: Fault)
    requires 1048576 < n < TWO_TO_THE_32
    ensures Parse(Header(n) + rest, tail) == (Failed(TooLarge(n)), rest)
    ensures ReadAll(Header(n) + rest, tail) == ([], TooLarge(n))
  {
    var s := Header(n) + rest;
    HeaderRoundTrip(n);
    assert s[..4] == Header(n) && s[4..] == rest;
  }

  /** A stream cut inside a frame ends in io.ErrUnexpectedEOF, one cut between frames in io.EOF; a
      connection that breaks reports that in either place. */
  lemma EndOfStream(ps: seq<seq<byte>>, c: nat)
    requires AllFit(ps) && c <= |Stream(ps)|
    ensures var (got, fault) := ReadAll(Stream(ps)[..c], EOF);
            && |got| <= |ps| && got == ps[..|got|]
            && fault == if |Stream(ps[..|got|])| == c then EOF else UnexpectedEOF
    ensures ReadAll(Stream(ps)[..c], Broken).1 == Broken
  {
    TruncatedStream(ps, c, EOF);
    TruncatedStream(ps, c, Broken);
  }

  // ---------- reading ----------

  /** A connection delivering `rest` in chunks of any non-zero size, then `tail` for ever. */
  class Reader {
    var rest: seq<byte>
    const tail: Fault

    constructor (data: seq<byte>, tail: Fault)
      requires tail.EOF? || tail.Broken?
      ensures rest == data && this.tail == tail
    {
      rest, this.tail := data, tail;
    }

    /** Stores some bytes at `buf[from..]`: at least one unless the input is over. The end of
        input may be reported together with the last bytes or by the next call. */
    method Read(buf: array<byte>, from: nat) returns (n: nat, err: Option<Fault>)
      requires from < buf.Length
      modifies this`rest, buf
      ensures from + n <= buf.Length && n <= |old(rest)|
      ensures rest == old(rest)[n..]
      ensures buf[..] == old(buf[..from]) + old(rest)[..n] + old(buf[from + n..])
      ensures err.None? ==> n > 0
      ensures err.Some? ==> err.value == tail && rest == []
    {
      var room := buf.Length - from;
      if rest == [] {
        n, err := 0, Some(tail);
      } else {
        n :| 1 <= n <= room && n <= |rest|;
        var early: bool := *;
        err := if n == |rest| && early then Some(tail) else None;
      }
      ghost var before := buf[..];
      forall i | 0 <= i < n {
        buf[from + i] := rest[i];
      }
      assert buf[..] == before[..from] + rest[..n] + before[from + n..];
      rest := rest[n..];
    }
  }

  /** Fills `buf` from `r`, however the bytes are chunked. */
  method ReadFull(r: Reader, buf: array<byte>) returns (err: Option<Fault>)
    requires r.tail.EOF? || r.tail.Broken?
    modifies r`rest, buf
    ensures buf.Length <= |old(r.rest)| ==>
              err.None? && buf[..] == old(r.rest)[..buf.Length] && r.rest == old(r.rest)[buf.Length..]
    ensures buf.Length > |old(r.rest)| ==>
              err == Some(if old(r.rest) == [] then r.tail else Cut(r.tail)) && r.rest == []
  {
    var n := 0;
    err := None;
    while n < buf.Length && err.None?
      invariant 0 <= n <= buf.Length && n <= |old(r.rest)|
      invariant buf[..n] == old(r.rest)[..n]
      invariant r.rest == old(r.rest)[n..]
      invariant err.Some? ==> err.value == r.tail && r.rest == []
      decreases |r.rest|, err.None?
    {
      var nn;
      ghost var before := n;
      nn, err := r.Read(buf, n);
      n := n + nn;
      assert buf[..n] == old(r.rest)[..before] + old(r.rest)[before..][..nn];
    }
    assert buf[..n] == old(r.rest)[..n];
    if n >= buf.Length {
      err := None;
      assert buf[..n] == buf[..];
    } else if n > 0 && err == Some(EOF) {
      err := Some(UnexpectedEOF);
    }
  }

  /** Reads one frame. The outcome and the bytes consumed depend on the bytes alone, never on
      the chunks they came in. */
  method ReadFrame(r: Reader) returns (outcome: Outcome)
    requires r.tail.EOF? || r.tail.Broken?
    modifies r`rest
    ensures (outcome, r.rest) == Parse(old(r.rest), r.tail)
  {
    var hdr := new byte[4];
    var err := ReadFull(r, hdr);
    if err.Some? {
      return Failed(err.value);
    }
    var n := BigEndianValue(hdr[..]);
    if n > MAX_FRAME_SIZE {
      return Failed(TooLarge(n));
    }
    outcome := ReadBody(r, n);
  }

  method ReadBody(r: Reader, n: nat) returns (outcome: Outcome)
    requires r.tail.EOF? || r.tail.Broken?
    modifies r`rest
    ensures (outcome, r.rest) == if |old(r.rest)| < n then (Failed(Cut(r.tail)), [])
                                 else (Payload(old(r.rest)[..n]), old(r.rest)[n..])
  {
    var buf := new byte[n];
    var err := ReadFull(r, buf);
    if err.Some? {
      if err.value == EOF {
        return Failed(UnexpectedEOF);
      }
      return Failed(err.value);
    }
    outcome := Payload(buf[..]);
  }

  // ---------- writing ----------

  /** The bytes put on a connection. `failedAt` is their number when a write first failed. */
  class Writer {
    var sent: seq<byte>
    ghost var failedAt: Option<nat>

    constructor ()
      ensures sent == [] && failedAt == None
    {
      sent, failedAt := [], None;
    }

    /** No byte has been put on the connection since the first failed write. */
    ghost predicate Quiet()
      reads this
    {
      failedAt.Some? ==> |sent| == failedAt.value
    }

    /** Puts all of `p` on the connection, or fails after any part of it. */
    method Write(p: seq<byte>) returns (ok: bool)
      modifies this
      ensures old(sent) <= sent <= old(sent) + p
      ensures ok ==> sent == old(sent) + p && failedAt == old(failedAt)
      ensures !ok ==> failedAt == if old(failedAt).Some? then old(failedAt) else Some(|sent|)
    {
      ok := *;
      if ok {
        sent := sent + p;
      } else {
        var k: nat :| k <= |p|;
        sent := sent + p[..k];
        Fail();
      }
    }

    ghost method Fail()
      modifies this`failedAt
      ensures failedAt == if old(failedAt).Some? then old(failedAt) else Some(|sent|)
    {
      if failedAt.None? {
        failedAt := Some(|sent|);
      }
    }
  }

  /** Writes one frame: all of it, or a prefix of it and an error. An over-size payload is an
      error that puts nothing on the connection. */
  method WriteFrame(w: Writer, payload: seq<byte>) returns (ok: bool)
    modifies w
    ensures ok ==>
              |payload| <= MAX_FRAME_SIZE && w.sent == old(w.sent) + Encode(payload) && w.failedAt == old(w.failedAt)
    ensures !ok ==> w.failedAt == if old(w.failedAt).Some? then old(w.failedAt) else Some(|w.sent|)
    ensures |payload| > MAX_FRAME_SIZE ==> !ok && w.sent == old(w.sent)
    ensures |payload| <= MAX_FRAME_SIZE ==> old(w.sent) <= w.sent <= old(w.sent) + Encode(payload)
  {
    if |payload| > MAX_FRAME_SIZE {
      w.Fail();
      return false;
    }
    var hdr := Header(|payload|);
    ok := w.Write(hdr);
    if !ok {
      assert w.sent <= old(w.sent) + hdr <= old(w.sent) + hdr + payload;
      assert old(w.sent) + hdr + payload == old(w.sent) + Encode(payload);
      return;
    }
    ok := w.Write(payload);
    assert old(w.sent) + hdr + payload == old(w.sent) + Encode(payload);
  }
}
