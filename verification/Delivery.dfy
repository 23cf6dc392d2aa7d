/**
 From the bytes on a connection to what its client believes: the frames of the messages a session
 attempted, cut off where a write first failed, read back, decoded and folded.
 */
module Delivery {
  import opened Frame
  import opened Motion
  import opened Universe
  import opened Protocol
  import opened Machine
  import opened Theorems

  type Encoding = ServerMsg -> seq<byte>
  type Decoding = seq<byte> -> ServerMsg

  function Payloads(encode: Encoding, ms: seq<ServerMsg>): seq<seq<byte>> {
    seq(|ms|, i requires 0 <= i < |ms| => encode(ms[i]))
  }

  function Decoded(decode: Decoding, ps: seq<seq<byte>>): seq<ServerMsg> {
    seq(|ps|, i requires 0 <= i < |ps| => decode(ps[i]))
  }

  /** The bytes a connection carries after `out` was attempted, in order, up to a failure. All of
      it went out unless the last attempt failed; then the rest did, and some prefix of the last
      frame, or none of it if it was too large to be one. */
  ghost predicate Delivered(encode: Encoding, out: seq<ServerMsg>, broken: bool, sent: seq<byte>) {
    if !broken then
      AllFit(Payloads(encode, out)) && sent == Stream(Payloads(encode, out))
    else
      && out != []
      && AllFit(Payloads(encode, out[..|out| - 1]))
      && var whole, last := Stream(Payloads(encode, out[..|out| - 1])), encode(out[|out| - 1]);
         if |last| <= MAX_FRAME_SIZE then whole <= sent <= whole + Encode(last) else sent == whole
  }

  lemma PayloadsNext(encode: Encoding, ms: seq<ServerMsg>, m: ServerMsg)
    requires AllFit(Payloads(encode, ms)) && |encode(m)| <= MAX_FRAME_SIZE
    ensures AllFit(Payloads(encode, ms + [m]))
    ensures Stream(Payloads(encode, ms + [m])) == Stream(Payloads(encode, ms)) + Encode(encode(m))
  {
    assert Payloads(encode, ms + [m]) == Payloads(encode, ms) + [encode(m)];
    StreamSplit(Payloads(encode, ms), [encode(m)]);
    assert [encode(m)][1..] == [];
    assert Stream([encode(m)]) == Encode(encode(m)) + Stream([]);
  }

  lemma StreamGrows(ps: seq<seq<byte>>, j: nat, k: nat)
    requires AllFit(ps) && j <= k <= |ps|
    ensures |Stream(ps[..j])| <= |Stream(ps[..k])|
  {
    assert ps[..k] == ps[..j] + ps[j..k];
    StreamSplit(ps[..j], ps[j..k]);
  }

  /** A stream cut inside its last frame, or after it, reads back as all its payloads or as all
      but the last. */
  lemma CutInLast(ps: seq<seq<byte>>, c: nat, tail: Fault)
    requires ps != [] && AllFit(ps) && |Stream(ps[..|ps| - 1])| <= c <= |Stream(ps)|
    ensures var got := ReadAll(Stream(ps)[..c], tail).0; |ps| - 1 <= |got| <= |ps| && got == ps[..|got|]
  {
    TruncatedStream(ps, c, tail);
    var k := |ReadAll(Stream(ps)[..c], tail).0|;
    if k < |ps| - 1 {
      StreamGrows(ps, k + 1, |ps| - 1);
      assert false;
    }
  }

  /** What is read off a connection is what was sent: all of it, or all but the last message if
      that write failed. */
  lemma ReadsBack(encode: Encoding, out: seq<ServerMsg>, broken: bool, sent: seq<byte>, tail: Fault)
    returns (received: nat)
    requires Delivered(encode, out, broken, sent)
    ensures |out| - (if broken then 1 else 0) <= received <= |out|
    ensures ReadAll(sent, tail).0 == Payloads(encode, out[..received])
  {
    if !broken {
      WholeStream(Payloads(encode, out), tail);
      assert out[..|out|] == out;
      return |out|;
    }
    var k := |out| - 1;
    if |encode(out[k])| > MAX_FRAME_SIZE {
      WholeStream(Payloads(encode, out[..k]), tail);
      return k;
    }
    received := ReadsBackBroken(encode, out[..k], out[k], sent, tail);
    assert out == out[..k] + [out[k]];
  }

  lemma ReadsBackBroken(encode: Encoding, ms: seq<ServerMsg>, m: ServerMsg, sent: seq<byte>, tail: Fault)
    returns (received: nat)
    requires AllFit(Payloads(encode, ms)) && |encode(m)| <= MAX_FRAME_SIZE
    requires Stream(Payloads(encode, ms)) <= sent <= Stream(Payloads(encode, ms)) + Encode(encode(m))
    ensures |ms| <= received <= |ms| + 1
    ensures ReadAll(sent, tail).0 == Payloads(encode, (ms + [m])[..received])
  {
    PayloadsNext(encode, ms, m);
    var ps := Payloads(encode, ms + [m]);
    assert ps[..|ms|] == Payloads(encode, ms);
    assert sent == Stream(ps)[..|sent|];
    CutInLast(ps, |sent|, tail);
    received := |ReadAll(sent, tail).0|;
    assert ps[..received] == Payloads(encode, (ms + [m])[..received]);
  }

  /** What a client believes after reading a connection to its end. */
  function Belief(decode: Decoding, sent: seq<byte>, tail: Fault): Client {
    ReceiveAll(Fresh, Decoded(decode, ReadAll(sent, tail).0))
  }

  ghost predicate Inverts(decode: Decoding, encode: Encoding) {
    forall m :: decode(encode(m)) == m
  }

  lemma BeliefIs(encode: Encoding, decode: Decoding, out: seq<ServerMsg>, broken: bool, sent: seq<byte>, tail: Fault)
    returns (received: nat)
    requires Inverts(decode, encode) && Delivered(encode, out, broken, sent)
    ensures |out| - (if broken then 1 else 0) <= received <= |out|
    ensures Belief(decode, sent, tail) == ReceiveAll(Fresh, out[..received])
  {
    received := ReadsBack(encode, out, broken, sent, tail);
    assert Decoded(decode, Payloads(encode, out[..received])) == out[..received];
  }

  /** From bytes to beliefs: in every reachable state, a client that reads what its connection
      carries holds, once a sync is complete, exactly what World.Perceived gave in it, and at any
      other moment, after a write that failed part-way too, of each id what it gave in the latest
      sync or in the one before. */
  lemma BytesTellTheTruth(h: Hypot, seeds: seq<Seed>, minVersion: nat, acts: seq<Action>, s: System, sid: nat,
                          encode: Encoding, decode: Decoding, sent: seq<byte>, tail: Fault)
    returns (prior: View, sample: View)
    requires Reached(h, seeds, minVersion, acts, s) && sid in s.sessions
    requires Inverts(decode, encode) && Delivered(encode, s.sessions[sid].out, s.sessions[sid].broken, sent)
    ensures ShowsPriorSync(h, Boot(seeds, minVersion), acts, sid, prior)
    ensures ShowsSync(h, Boot(seeds, minVersion), acts, sid, sample)
    ensures OldOrNew(Belief(decode, sent, tail).view, prior, sample)
    ensures s.sessions[sid].phase.Waiting? ==> Belief(decode, sent, tail).view == sample
  {
    var p := s.sessions[sid];
    var received := BeliefIs(encode, decode, p.out, p.broken, sent, tail);
    prior, sample := ClientHoldsOldOrNew(h, seeds, minVersion, acts, s, sid, received);
    if p.phase.Waiting? {
      ReachedInv(h, seeds, minVersion, acts, s);
      WaitingIsWhole(s, sid);
      assert p.out[..received] == p.out;
      EndToEndReplication(h, seeds, minVersion, acts, s, sid);
    }
  }

  lemma WaitingIsWhole(s: System, sid: nat)
    requires Inv(s) && At(s, sid, Waiting)
    ensures !s.sessions[sid].broken
  {
    assert SessionOk(s, sid, s.sessions[sid]);
  }
}
