/**
 Framing of the FPM stream (daemon/fpm.h) and its reassembly from whatever
 pieces recv returns (daemon/broker_process.c, broker_process_fpm).
 */
module Fpm {
  import opened Netlink

  const FPM_HDR: nat := 4            // FPM_MSG_HDR_LEN
  const FPM_MAX_MSG_LEN: nat := 4096
  const FPM_VERSION: byte := 1
  const TYPE_NONE: byte := 0
  const TYPE_NETLINK: byte := 1

  /** fpm_msg_len: network byte order. */
  function FrameLen(h: Bytes): nat
    requires |h| >= FPM_HDR
  {
    Number(h[3], h[2], 0, 0)
  }

  /** fpm_msg_hdr_ok. */
  predicate HdrOk(h: Bytes)
    requires |h| >= FPM_HDR
  {
    && h[1] != TYPE_NONE
    && FPM_HDR <= FrameLen(h) <= FPM_MAX_MSG_LEN
    && (h[1] == TYPE_NETLINK ==> Align(FrameLen(h)) == FrameLen(h))
  }

  /** The checks of broker_process_fpm, in order. */
  predicate Accepts(h: Bytes)
    requires |h| >= FPM_HDR
  {
    HdrOk(h) && h[0] == FPM_VERSION && h[1] == TYPE_NETLINK && FrameLen(h) <= FPM_MAX_MSG_LEN
  }

  /** An accepted header leaves an aligned payload: what the walk in Netlink needs. */
  lemma AcceptedIsAligned(h: Bytes)
    requires |h| >= FPM_HDR && Accepts(h)
    ensures FPM_HDR <= FrameLen(h) <= FPM_MAX_MSG_LEN && Aligned(FrameLen(h) - FPM_HDR)
  {
  }

  /** The header in bytes and numbers: version 1, type netlink (1), length in network order. */
  predicate HeaderBytes(h: Bytes)
    requires |h| >= 4
  {
    h[0] == 1 && h[1] == 1 && 4 <= 0x100 * h[2] as nat + h[3] <= 4096 && h[3] % 4 == 0
  }

  lemma FrameLenBytes(h: Bytes)
    requires |h| >= 4
    ensures FrameLen(h) == 0x100 * h[2] as nat + h[3]
    ensures FrameLen(h) / 0x100 == h[2] && FrameLen(h) % 0x100 == h[3]
  {
  }

  lemma AlignedBytes(a: nat, b: nat)
    ensures Align(0x100 * a + b) == 0x100 * a + b <==> b % 4 == 0
  {
  }

  /** Which headers pass, told in bytes. */
  lemma AcceptsInBytes(h: Bytes)
    requires |h| >= 4
    ensures Accepts(h) <==> HeaderBytes(h)
  {
    hide FrameLen, Align;
    FrameLenBytes(h);
    AlignedBytes(h[2], h[3]);
  }

  // ----- the stream as a whole -----

  /** What a stream starts with. */
  datatype Frame = Short | Bad | Whole(payload: Bytes, rest: Bytes)

  function First(s: Bytes): Frame {
    if |s| < FPM_HDR then Short
    else if !Accepts(s) then Bad
    else if |s| < FrameLen(s) then Short
    else Whole(s[FPM_HDR..FrameLen(s)], s[FrameLen(s)..])
  }

  lemma FirstIsAligned(s: Bytes)
    requires First(s).Whole?
    ensures Aligned(|First(s).payload|) && |First(s).rest| < |s|
  {
  }

  /** What the whole stream publishes, read to its end or to the first bad header. */
  function Decode(s: Bytes): seq<Pub>
    decreases |s|
  {
    match First(s)
    case Whole(p, rest) => FirstIsAligned(s); Pubs(p) + Decode(rest)
    case _ => []
  }

  predicate Sendable(p: Bytes) {
    |p| + FPM_HDR <= FPM_MAX_MSG_LEN && Aligned(|p|)
  }

  /** A payload as its sender frames it. */
  function Encode(p: Bytes): Bytes
    requires Sendable(p)
  {
    [FPM_VERSION, TYPE_NETLINK, (|p| + FPM_HDR) / 0x100, (|p| + FPM_HDR) % 0x100] + p
  }

  function EncodeAll(ps: seq<Bytes>): Bytes
    requires forall p :: p in ps ==> Sendable(p)
  {
    if ps == [] then [] else assert ps[0] in ps && Sendable(ps[0]); Encode(ps[0]) + EncodeAll(ps[1..])
  }

  function PubsAll(ps: seq<Bytes>): seq<Pub>
    requires forall p :: p in ps ==> Sendable(p)
  {
    if ps == [] then [] else assert ps[0] in ps && Sendable(ps[0]); Pubs(ps[0]) + PubsAll(ps[1..])
  }

  /** A frame is four header bytes and the payload, and is recognised whatever follows. */
  lemma FirstOfEncoded(p: Bytes, rest: Bytes)
    requires Sendable(p)
    ensures First(Encode(p) + rest) == Whole(p, rest)
    ensures |Encode(p)| == |p| + 4 && Encode(p)[..2] == [1, 1] && Encode(p)[4..] == p
    ensures 0x100 * Encode(p)[2] as nat + Encode(p)[3] == |p| + 4
  {
  }

  /** How a stream is taken apart, told in bytes. */
  lemma FirstInBytes(s: Bytes)
    ensures match First(s)
            case Bad => |s| >= 4 && !HeaderBytes(s)
            case Short => |s| < 4 || (HeaderBytes(s) && |s| < 0x100 * s[2] as nat + s[3])
            case Whole(p, rest) =>
              && |s| >= 4 && HeaderBytes(s) && s == s[..4] + p + rest
              && 0x100 * s[2] as nat + s[3] == 4 + |p|
  {
    hide Accepts, FrameLen, HeaderBytes;
    if |s| >= 4 {
      AcceptsInBytes(s);
      FrameLenBytes(s);
      if Accepts(s) { AcceptedIsAligned(s); }
    }
  }

  /** What is accepted is what a sender would have framed, byte for byte. */
  lemma FirstIsEncoded(s: Bytes)
    requires First(s).Whole?
    ensures Sendable(First(s).payload) && s == Encode(First(s).payload) + First(s).rest
  {
    hide Aligned, FrameLen;
    AcceptedIsAligned(s);
    FrameLenBytes(s);
    assert s[..FPM_HDR] == Encode(First(s).payload)[..FPM_HDR];
  }

  /** Round trip: a stream of frames, even cut off in its last frame, is read back frame by frame. */
  lemma {:induction false} DecodeEncoded(ps: seq<Bytes>, tail: Bytes)
    requires (forall p :: p in ps ==> Sendable(p)) && First(tail).Short?
    ensures Decode(EncodeAll(ps) + tail) == PubsAll(ps)
    decreases |ps|
  {
    hide First, Encode, Pubs, Sendable;
    if ps == [] {
      assert EncodeAll(ps) + tail == tail;
    } else {
      var rest := EncodeAll(ps[1..]) + tail;
      assert ps[0] in ps && forall p :: p in ps[1..] ==> p in ps;
      assert EncodeAll(ps) + tail == Encode(ps[0]) + rest;
      FirstOfEncoded(ps[0], rest);
      DecodeEncoded(ps[1..], tail);
    }
  }

  /** The header decides alone, and how a stream starts is told by it and the length. */
  lemma FirstByHeader(s: Bytes)
    ensures |s| < FPM_HDR ==> First(s) == Short
    ensures |s| >= FPM_HDR ==>
              var h := s[..FPM_HDR];
              if !Accepts(h) then First(s) == Bad
              else if |s| < FrameLen(h) then First(s) == Short
              else FPM_HDR <= FrameLen(h) && First(s) == Whole(s[FPM_HDR..FrameLen(h)], s[FrameLen(h)..])
  {
    if |s| >= FPM_HDR {
      assert Accepts(s[..FPM_HDR]) == Accepts(s) && FrameLen(s[..FPM_HDR]) == FrameLen(s);
    }
  }

  // ----- the socket -----

  method Store(buf: array<byte>, at: nat, bytes: Bytes)
    requires at + |bytes| <= buf.Length
    modifies buf
    ensures buf[..at] == old(buf[..at]) && buf[at..at + |bytes|] == bytes
    ensures buf[at + |bytes|..] == old(buf[at + |bytes|..])
  {
    for i := 0 to |bytes|
      invariant forall j :: 0 <= j < at || at + |bytes| <= j < buf.Length ==> buf[j] == old(buf[j])
      invariant forall j :: 0 <= j < i ==> buf[at + j] == bytes[j]
    {
      buf[at + i] := bytes[i];
    }
  }

  /** What recv may do next: give up to so many bytes, or fail. */
  datatype Mood = Give(most: nat) | Fail

  class Socket {
    var stream: Bytes        // sent by the peer and not yet received
    var moods: seq<Mood>     // how the coming calls will go; beyond that, all that is asked for
    var failed: bool

    constructor (stream: Bytes, moods: seq<Mood>)
      ensures this.stream == stream && this.moods == moods && !failed
    {
      this.stream, this.moods, failed := stream, moods, false;
    }

    /** recv: any positive number of bytes, 0 at the end of the stream, or an error. */
    method Recv(buf: array<byte>, at: nat, want: nat) returns (n: int)
      requires want > 0 && at + want <= buf.Length
      modifies this, buf
      ensures n < 0 ==> failed && stream == old(stream)
      ensures n >= 0 ==> failed == old(failed)
      ensures n == 0 ==> old(stream) == stream == []
      ensures n > 0 ==> n <= want && n <= |old(stream)| && stream == old(stream)[n..]
      ensures n > 0 ==> buf[at..at + n] == old(stream)[..n]
      ensures buf[..at] == old(buf[..at]) && buf[at + want..] == old(buf[at + want..])
    {
      var mood := Give(want);
      if |moods| > 0 {
        mood, moods := moods[0], moods[1..];
      }
      if mood.Fail? {
        failed := true;
        return -1;
      }
      n := if mood.most == 0 then 1 else if mood.most < want then mood.most else want;
      n := if n < |stream| then n else |stream|;
      ghost var end := buf[at + n..];
      Store(buf, at, stream[..n]);
      assert buf[at + want..] == buf[at + n..][want - n..] == end[want - n..];
      stream := stream[n..];
    }

    /** Either receive loop: keep asking until `upto` bytes are there. */
    method Fill(buf: array<byte>, from: nat, upto: nat) returns (r: int)
      requires from <= upto <= buf.Length
      modifies this, buf
      ensures r < 0 ==> failed
      ensures r >= 0 ==> failed == old(failed)
      ensures buf[..from] == old(buf[..from]) && buf[upto..] == old(buf[upto..])
      ensures r > 0 ==> |old(stream)| >= upto - from && stream == old(stream)[upto - from..]
      ensures r > 0 ==> buf[from..upto] == old(stream)[..upto - from]
      ensures r == 0 ==> |old(stream)| < upto - from && stream == []
    {
      var l: nat := from;
      r := 1;
      while l < upto
        invariant from <= l <= upto && r > 0 && failed == old(failed)
        invariant |old(stream)| >= l - from && stream == old(stream)[l - from..]
        invariant buf[upto..] == old(buf[upto..])
        invariant buf[..from] == old(buf[..from]) && buf[from..l] == old(stream)[..l - from]
      {
        ghost var was := buf[..l];
        var n := Recv(buf, l, upto - l);
        if n <= 0 {
          r := n;
          assert buf[..from] == buf[..l][..from] == was[..from];
          return;
        }
        assert buf[..from] == buf[..l][..from] == was[..from];
        assert buf[from..l] == buf[..l][from..] == was[from..];
        assert buf[from..l + n] == buf[from..l] + buf[l..l + n];
        assert old(stream)[..l - from + n] == old(stream)[..l - from] + old(stream)[l - from..][..n];
        r := n;
        l := l + n;
      }
    }

    /**
     broker_process_fpm: one frame, however recv splits it.  `r` is negative on
     an error, 0 at the end of the stream, and positive after a frame.
     */
    method ProcessFpm() returns (r: int, out: seq<Pub>)
      modifies this
      ensures !failed ==> match First(old(stream))
                          case Short => r == 0 && out == []
                          case Bad => r < 0 && out == []
                          case Whole(p, rest) => r > 0 && !Underflows(p) && out == Pubs(p) && stream == rest
      ensures r >= 0 ==> failed == old(failed)
      ensures failed && !old(failed) ==> r < 0 && out == []
    {
      hide First, Aligned, Pubs, Finish, Underflows, Accepts, FrameLen;
      ghost var s := stream;
      FirstByHeader(s);
      var buf := new byte[FPM_MAX_MSG_LEN];
      out := [];
      r := Fill(buf, 0, FPM_HDR);
      if r <= 0 {
        return;
      }
      var h := buf[..FPM_HDR];
      assert h == s[..FPM_HDR];
      if !Accepts(h) {
        return -1, [];
      }
      var len := FrameLen(h);
      AcceptedIsAligned(h);
      r := Fill(buf, FPM_HDR, len);
      if r <= 0 {
        return;
      }
      assert buf[..][FPM_HDR..len] == s[FPM_HDR..len];
      AlignedIsSafe(s[FPM_HDR..len]);
      var wrapped: bool;
      out, wrapped := ProcessNlmsg(buf, FPM_HDR, len - FPM_HDR);
      assert !wrapped;
    }

    /** The FPM side of the main loop: process frames until the stream ends or goes wrong. */
    method Serve() returns (out: seq<Pub>)
      requires !failed
      modifies this
      ensures !failed ==> out == Decode(old(stream))
    {
      hide First, Pubs, Aligned;
      out := [];
      ghost var s := stream;
      var r := 1;
      while r > 0
        invariant !failed ==> r > 0 ==> Decode(old(stream)) == out + Decode(stream)
        invariant !failed ==> r <= 0 ==> Decode(old(stream)) == out
        invariant r > 0 ==> !failed
        decreases r > 0, |stream|
      {
        ghost var before := stream;
        if First(before).Whole? { FirstIsAligned(before); }
        var pubs: seq<Pub>;
        r, pubs := ProcessFpm();
        out := out + pubs;
      }
    }
  }
}
