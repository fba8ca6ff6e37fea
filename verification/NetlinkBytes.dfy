/**
 What the walk of Netlink.dfy does, told again in bytes and numbers as they are
 on the wire, without its constants, its integers or its recursion.
 */
module NetlinkBytes {
  import opened Netlink

  // ----- one message -----

  /** RTM_NEWROUTE or RTM_DELROUTE in host order, and room for the route header. */
  predicate RouteBytes(m: Bytes) {
    |m| >= 28 && m[5] == 0 && m[4] in {24, 25}
  }

  /** Byte `i` of the message that is passed on. */
  function ByteAfter(m: Bytes, i: nat): byte
    requires 16 <= |m| && i < |m|
  {
    if i == 7 && m[4] == 24 && m[5] == 0 then m[7] - m[7] % 2 + 1
    else if i == 20 && RouteBytes(m) && m[20] == 0 then 254
    else if i == 22 && RouteBytes(m) && m[16] == 2 && m[21] == 2 && m[22] == 253 then 0
    else if i == 23 && RouteBytes(m) && m[4] == 25 && m[12..16] != [0, 0, 0, 0] && m[23] == 0 then 1
    else m[i]
  }

  lemma Numbers(a: byte, b: byte, c: byte, d: byte, k: byte)
    ensures Number(a, b, 0, 0) == k <==> a == k && b == 0
    ensures Number(a, b, c, d) == 0 <==> a == 0 && b == 0 && c == 0 && d == 0
  {
  }

  lemma FieldsInBytes(m: Bytes)
    requires |m| >= 16
    ensures MsgType(m) == RTM_NEWROUTE <==> m[4] == 24 && m[5] == 0
    ensures MsgType(m) == RTM_DELROUTE <==> m[4] == 25 && m[5] == 0
    ensures U32(m, 12) == 0 <==> m[12..16] == [0, 0, 0, 0]
  {
    hide Number;
    Numbers(m[4], m[5], 0, 0, RTM_NEWROUTE);
    Numbers(m[4], m[5], 0, 0, RTM_DELROUTE);
    Numbers(m[12], m[13], m[14], m[15], 0);
    assert m[12..16] == [m[12], m[13], m[14], m[15]];
  }

  /** Which messages are routes, and which bytes of them change to what. */
  lemma RewriteInBytes(m: Bytes)
    requires |m| >= 16
    ensures IsRoute(m) <==> RouteBytes(m)
    ensures |Rewrite(m)| == |m| && forall i :: 0 <= i < |m| ==> Rewrite(m)[i] == ByteAfter(m, i)
  {
    hide MsgType, U32;
    FieldsInBytes(m);
    if |m| >= 28 {
      forall i | 0 <= i < |m| ensures Rewrite(m)[i] == ByteAfter(m, i) {}
    }
  }

  /** A route message is handed on once and whole, kernel routes with the top priority; others are not. */
  lemma HandInBytes(m: Bytes)
    requires |m| >= 16
    ensures RouteBytes(m) ==> |Hand(m)| == 1 && Hand(m)[0].msg == Rewrite(m)
    ensures RouteBytes(m) ==> Hand(m)[0].pri == if m[21] == 2 then 0 else 2
    ensures !RouteBytes(m) ==> Hand(m) == []
  {
    hide Rewrite;
    RewriteInBytes(m);
  }

  // ----- where the messages are -----

  function LenAt(s: Bytes, i: nat): nat
    requires i + 4 <= |s|
  {
    var a: nat, b: nat, c: nat, d: nat := s[i], s[i + 1], s[i + 2], s[i + 3];
    a + 0x100 * b + 0x1_0000 * c + 0x100_0000 * d
  }

  /** A message at `i` has a header and lies within the buffer. */
  predicate MessageAt(s: Bytes, i: nat) {
    i + 16 <= |s| && 16 <= LenAt(s, i) && i + LenAt(s, i) <= |s|
  }

  /** `e` is where a message may follow `x`: behind it, at a multiple of four from its start. */
  predicate Follows(x: Span, e: nat) {
    x.start + x.len <= e < x.start + x.len + 4 && (e - x.start) % 4 == 0
  }

  /** From `at` on the messages follow each other, and there is none at `end`. */
  predicate Chain(s: Bytes, at: nat, xs: seq<Span>, end: nat) {
    && (forall i :: 0 <= i < |xs| ==> MessageAt(s, xs[i].start) && xs[i].len == LenAt(s, xs[i].start))
    && (forall i :: 0 <= i < |xs| - 1 ==> Follows(xs[i], xs[i + 1].start))
    && (if xs == [] then end == at else xs[0].start == at && Follows(xs[|xs| - 1], end))
    && !MessageAt(s, end)
  }

  lemma OkInBytes(all: Bytes, at: nat)
    requires at <= |all|
    ensures Ok(all[at..]) <==> MessageAt(all, at)
    ensures MessageAt(all, at) ==> MsgLen(all[at..]) == LenAt(all, at)
  {
  }

  lemma OkIsLong(s: Bytes)
    requires Ok(s)
    ensures 16 <= |s| && 16 <= MsgLen(s) <= |s|
  {
  }

  lemma AlignInBytes(at: nat, n: nat)
    ensures Follows(Span(at, n), at + Align(n))
  {
  }

  lemma NotAtEnd(s: Bytes, e: nat)
    requires e >= |s|
    ensures !MessageAt(s, e)
  {
  }

  lemma NothingFollows(s: Bytes, at: nat)
    requires Ok(s) && Stride(s) == |s|
    ensures Spans(s, at) == [Span(at, MsgLen(s))]
  {
    assert s[Stride(s)..] == [];
  }

  /** The walk goes along the whole chain; the length wraps exactly if the chain ends beyond the buffer. */
  lemma {:induction false} WalkIsAChain(all: Bytes, at: nat) returns (end: nat)
    requires at <= |all|
    ensures Chain(all, at, Spans(all[at..], at), end)
    ensures Underflows(all[at..]) <==> end > |all|
    decreases |all| - at
  {
    hide MsgLen, Align, Follows, MessageAt, LenAt, Ok;
    var s := all[at..];
    OkInBytes(all, at);
    if !Ok(s) {
      end := at;
    } else {
      OkIsLong(s);
      var n := MsgLen(s);
      AlignInBytes(at, n);
      if Align(n) > |s| {
        end := at + Align(n);
        assert s[Stride(s)..] == [];
        assert Spans(s, at) == [Span(at, n)] by { NothingFollows(s, at); }
        NotAtEnd(all, end);
      } else {
        assert s[Align(n)..] == all[at + Align(n)..];
        end := WalkIsAChain(all, at + Align(n));
      }
    }
  }

  // ----- what is published -----

  /** The route messages of a buffer, whole and in order, each with its priority. */
  function RoutesIn(w: Bytes, xs: seq<Span>): seq<Pub>
    requires forall x :: x in xs ==> x.start + x.len <= |w|
  {
    if xs == [] then []
    else
      assert xs[0] in xs;
      var m := w[xs[0].start..xs[0].start + xs[0].len];
      (if RouteBytes(m) then [Pub(m, if m[21] == 2 then 0 else 2)] else []) + RoutesIn(w, xs[1..])
  }

  lemma HandIsRoute(m: Bytes)
    requires |m| >= 16
    ensures var r := Rewrite(m);
            Hand(m) == if RouteBytes(r) then [Pub(r, if r[21] == 2 then 0 else 2)] else []
  {
    hide Rewrite;
    HandInBytes(m);
    RewriteInBytes(m);
  }

  lemma NoMessage(s: Bytes, at: nat)
    requires !Ok(s)
    ensures Pubs(s) == [] && Spans(s, at) == []
  {
  }

  lemma {:induction false} PubsFrom(w: Bytes, at: nat, s: Bytes)
    requires at + |s| <= |w| && w[at..at + |s|] == Walked(s)
    ensures forall x :: x in Spans(s, at) ==> at <= x.start && x.start + x.len <= at + |s|
    ensures Pubs(s) == RoutesIn(w, Spans(s, at))
    decreases |s|
  {
    hide MsgLen, Stride, Rewrite, Hand, Walked, Pubs, Spans, RouteBytes;
    if Ok(s) {
      var n, a := MsgLen(s), Stride(s);
      WalkedParts(s);
      WalkedStep(s);
      SpansStep(s, at);
      HandIsRoute(s[..n]);
      assert w[at..at + n] == Walked(s)[..n];
      assert w[at + a..at + |s|] == Walked(s)[a..];
      PubsFrom(w, at + a, s[a..]);
      var xs := Spans(s, at);
      assert xs[0] == Span(at, n) && xs[1..] == Spans(s[a..], at + a);
    } else {
      assert Pubs(s) == [] && Spans(s, at) == [] by { NoMessage(s, at); }
    }
  }

  /** What is published is what the rewritten buffer holds: each of its route messages, whole, once, in order. */
  lemma PubsAreTheRoutes(s: Bytes)
    ensures forall x :: x in Spans(s, 0) ==> x.start + x.len <= |s|
    ensures Pubs(s) == RoutesIn(Walked(s), Spans(s, 0))
  {
    hide Pubs, Spans, Walked;
    PubsFrom(Walked(s), 0, s);
  }

  lemma SliceOfRest(s: Bytes, a: nat, i: nat, j: nat)
    requires a <= i <= j <= |s|
    ensures s[a..][i - a..j - a] == s[i..j]
  {
  }

  /** Each message is rewritten by itself, where it stands. */
  lemma {:induction false} SpansAreRewritten(s: Bytes, at: nat, x: Span)
    requires x in Spans(s, at)
    ensures at <= x.start && 16 <= x.len && x.start + x.len <= at + |s|
    ensures var i, j := x.start - at, x.start - at + x.len; Walked(s)[i..j] == Rewrite(s[i..j])
    decreases |s|
  {
    hide MsgLen, Stride, Rewrite, Walked;
    var n, a := MsgLen(s), Stride(s);
    WalkedParts(s);
    if x != Span(at, n) {
      SpansAreRewritten(s[a..], at + a, x);
      var i, j := x.start - at, x.start - at + x.len;
      SliceOfRest(Walked(s), a, i, j);
      SliceOfRest(s, a, i, j);
    }
  }
}
