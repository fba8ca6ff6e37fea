/**
 The walk over netlink messages in a buffer and the in-place normalisation of
 route messages (daemon/broker_process.c, process_nlmsg and process_rtnl).
 Integers in netlink headers are in host order, here little-endian.
 */
module Netlink {
  type byte = x: nat | x < 256
  type Bytes = seq<byte>

  const HDRLEN: nat := 16        // sizeof(struct nlmsghdr)
  const RTLEN: nat := 28         // NLMSG_LENGTH(sizeof(struct rtmsg))
  const RTM_NEWROUTE: nat := 24
  const RTM_DELROUTE: nat := 25
  const AF_INET: byte := 2
  const RTPROT_KERNEL: byte := 2
  const RT_SCOPE_LINK: byte := 253
  const RT_SCOPE_UNIVERSE: byte := 0
  const RT_TABLE_UNSPEC: byte := 0
  const RT_TABLE_MAIN: byte := 254
  const RTN_UNSPEC: byte := 0
  const RTN_UNICAST: byte := 1

  // Offsets of the fields that are looked at.
  const FLAGS_HI: nat := 7       // high byte of nlmsg_flags, where NLM_F_REPLACE (0x100) is
  const FAMILY: nat := 16
  const TABLE: nat := 20
  const PROTOCOL: nat := 21
  const SCOPE: nat := 22
  const TYPE: nat := 23

  function Number(a: nat, b: nat, c: nat, d: nat): nat {
    a + 0x100 * b + 0x1_0000 * c + 0x100_0000 * d
  }

  function U16(s: Bytes, i: nat): nat
    requires i + 2 <= |s|
  {
    Number(s[i], s[i + 1], 0, 0)
  }

  function U32(s: Bytes, i: nat): nat
    requires i + 4 <= |s|
  {
    Number(s[i], s[i + 1], s[i + 2], s[i + 3])
  }

  function MsgLen(s: Bytes): nat
    requires |s| >= HDRLEN
  {
    U32(s, 0)
  }

  function MsgType(s: Bytes): nat
    requires |s| >= HDRLEN
  {
    U16(s, 4)
  }

  /** NLMSG_ALIGN, fpm_msg_align: round up to a multiple of 4. */
  function Align(n: nat): (a: nat)
    ensures n <= a < n + 4
  {
    (n + 3) / 4 * 4
  }

  predicate Aligned(n: nat) {
    Align(n) == n
  }

  /** A message that fits in an aligned buffer fits with its padding, and leaves an aligned rest. */
  lemma AlignFits(n: nat, len: nat)
    requires Aligned(len) && n <= len
    ensures Align(n) <= len && Aligned(len - Align(n))
  {
  }

  lemma AlignedIsMultiple(n: nat)
    ensures Aligned(n) <==> n % 4 == 0
    ensures Align(n) % 4 == 0
  {
  }

  lemma AlignOfAlign(n: nat)
    ensures Aligned(Align(n))
  {
  }

  lemma AlignedSum(a: nat, b: nat)
    requires Aligned(a) && Aligned(b)
    ensures Aligned(a + b)
  {
  }

  /** NLMSG_OK on what remains of the buffer. */
  predicate Ok(s: Bytes) {
    |s| >= HDRLEN && HDRLEN <= MsgLen(s) <= |s|
  }

  /** size_t subtraction. */
  function Minus(a: nat, b: nat): nat {
    if b <= a then a - b else (a - b) % 0x1_0000_0000_0000_0000
  }

  // ----- one message -----

  predicate IsMessage(m: Bytes) {
    |m| >= HDRLEN && MsgLen(m) == |m|
  }

  predicate IsRoute(m: Bytes) {
    |m| >= RTLEN && (MsgType(m) == RTM_NEWROUTE || MsgType(m) == RTM_DELROUTE)
  }

  function SetReplace(b: byte): byte {
    b - b % 2 + 1
  }

  /** Byte `k` becomes `v` if `c` holds. */
  function PutIf(c: bool, m: Bytes, k: nat, v: byte): (r: Bytes)
    requires k < |m|
    ensures |r| == |m|
  {
    if c then m[k := v] else m
  }

  /** What process_nlmsg and process_rtnl make of a message, where it stands. */
  function Rewrite(m: Bytes): (r: Bytes)
    requires |m| >= HDRLEN
    ensures |r| == |m|
  {
    var m1 := PutIf(MsgType(m) == RTM_NEWROUTE, m, FLAGS_HI, SetReplace(m[FLAGS_HI]));
    if !IsRoute(m) then m1 else
      var isLink := m[PROTOCOL] == RTPROT_KERNEL && m[FAMILY] == AF_INET && m[SCOPE] == RT_SCOPE_LINK;
      var m2 := PutIf(isLink, m1, SCOPE, RT_SCOPE_UNIVERSE);
      var m3 := PutIf(m[TABLE] == RT_TABLE_UNSPEC, m2, TABLE, RT_TABLE_MAIN);
      var untyped := MsgType(m) == RTM_DELROUTE && U32(m, 12) != 0 && m[TYPE] == RTN_UNSPEC;
      PutIf(untyped, m3, TYPE, RTN_UNICAST)
  }

  /** A message handed to route_broker_publish, with its priority (0 CONNECTED, 2 OTHER). */
  datatype Pub = Pub(msg: Bytes, pri: nat)

  function Hand(m: Bytes): seq<Pub>
    requires |m| >= HDRLEN
  {
    if IsRoute(m) then [Pub(Rewrite(m), if m[PROTOCOL] == RTPROT_KERNEL then 0 else 2)] else []
  }

  /** The rewrite touches four bytes at most, and none that frames or classifies the message. */
  lemma RewriteIsLocal(m: Bytes)
    requires |m| >= HDRLEN
    ensures forall i :: 0 <= i < |m| && i !in {FLAGS_HI, TABLE, SCOPE, TYPE} ==> Rewrite(m)[i] == m[i]
    ensures MsgLen(Rewrite(m)) == MsgLen(m) && MsgType(Rewrite(m)) == MsgType(m) && IsRoute(Rewrite(m)) == IsRoute(m)
  {
  }

  /** What the dataplane needs of a message: a replace, a table, a type, and no link-scope kernel route. */
  predicate Normal(m: Bytes)
    requires |m| >= HDRLEN
  {
    && (MsgType(m) == RTM_NEWROUTE ==> m[FLAGS_HI] % 2 == 1)
    && (IsRoute(m) ==>
          && m[TABLE] != RT_TABLE_UNSPEC
          && !(m[PROTOCOL] == RTPROT_KERNEL && m[FAMILY] == AF_INET && m[SCOPE] == RT_SCOPE_LINK)
          && !(MsgType(m) == RTM_DELROUTE && U32(m, 12) != 0 && m[TYPE] == RTN_UNSPEC))
  }

  /** The rewrite makes a message normal, leaves normal ones alone, and replaces only what is amiss. */
  lemma RewriteNormalises(m: Bytes)
    requires |m| >= HDRLEN
    ensures Normal(Rewrite(m)) && (Normal(m) <==> Rewrite(m) == m)
    ensures Rewrite(m)[FLAGS_HI] / 2 == m[FLAGS_HI] / 2
    ensures IsRoute(m) ==>
              && Rewrite(m)[TABLE] in {m[TABLE], RT_TABLE_MAIN}
              && Rewrite(m)[SCOPE] in {m[SCOPE], RT_SCOPE_UNIVERSE}
              && Rewrite(m)[TYPE] in {m[TYPE], RTN_UNICAST}
              && (m[TABLE] != RT_TABLE_UNSPEC ==> Rewrite(m)[TABLE] == m[TABLE])
              && (m[SCOPE] != RT_SCOPE_LINK ==> Rewrite(m)[SCOPE] == m[SCOPE])
              && (m[TYPE] != RTN_UNSPEC || MsgType(m) == RTM_NEWROUTE ==> Rewrite(m)[TYPE] == m[TYPE])
    ensures Hand(m) != [] <==> IsRoute(m)
    ensures IsRoute(m) ==> Hand(m)[0].pri == if m[PROTOCOL] == RTPROT_KERNEL then 0 else 2
  {
  }

  /** A connected IPv4 route is the same message whether it came with link scope or universe scope. */
  lemma ScopeDoesNotSplit(m: Bytes)
    requires IsMessage(m) && IsRoute(m) && m[PROTOCOL] == RTPROT_KERNEL && m[FAMILY] == AF_INET
    ensures Rewrite(m[SCOPE := RT_SCOPE_LINK]) == Rewrite(m[SCOPE := RT_SCOPE_UNIVERSE])
  {
  }

  lemma RewriteIsIdempotent(m: Bytes)
    requires |m| >= HDRLEN
    ensures Rewrite(Rewrite(m)) == Rewrite(m) && Hand(Rewrite(m)) == Hand(m)
  {
  }

  // ----- the walk -----

  /** How far the walk steps over the message it stands at; the padding may be cut off by the end. */
  function Stride(s: Bytes): (a: nat)
    requires Ok(s)
    ensures 0 < MsgLen(s) <= a <= |s|
  {
    if Align(MsgLen(s)) <= |s| then Align(MsgLen(s)) else |s|
  }

  /** The buffer after the walk. */
  function Walked(s: Bytes): (r: Bytes)
    ensures |r| == |s|
    decreases |s|
  {
    hide Stride, MsgLen, Rewrite;
    if !Ok(s) then s
    else Rewrite(s[..MsgLen(s)]) + s[MsgLen(s)..Stride(s)] + Walked(s[Stride(s)..])
  }

  /** What the walk publishes. */
  function Pubs(s: Bytes): seq<Pub>
    decreases |s|
  {
    hide Stride, MsgLen, Hand;
    if !Ok(s) then [] else Hand(s[..MsgLen(s)]) + Pubs(s[Stride(s)..])
  }

  /** A message found at `start`, `len` bytes long. */
  datatype Span = Span(start: nat, len: nat)

  /** Where the walk finds messages in `s`, which stands at `at` in the buffer. */
  function Spans(s: Bytes, at: nat): seq<Span>
    decreases |s|
  {
    hide Stride, MsgLen;
    if !Ok(s) then [] else [Span(at, MsgLen(s))] + Spans(s[Stride(s)..], at + Stride(s))
  }

  /** The messages are disjoint, in order and inside the buffer. */
  lemma {:induction false} SpansAreDisjoint(s: Bytes, at: nat)
    ensures forall i :: 0 <= i < |Spans(s, at)| ==>
              var x := Spans(s, at)[i];
              at <= x.start && x.len >= HDRLEN && x.start + x.len <= at + |s|
    ensures forall i, j :: 0 <= i < j < |Spans(s, at)| ==>
              Spans(s, at)[i].start + Spans(s, at)[i].len <= Spans(s, at)[j].start
    decreases |s|
  {
    hide Stride, MsgLen;
    if Ok(s) {
      SpansAreDisjoint(s[Stride(s)..], at + Stride(s));
    }
  }

  /** In an aligned place, every message is aligned. */
  lemma {:induction false} SpansAreAligned(s: Bytes, at: nat)
    requires Aligned(at)
    ensures forall i :: 0 <= i < |Spans(s, at)| ==> Aligned(Spans(s, at)[i].start)
    decreases |s|
  {
    hide Align, Aligned, MsgLen;
    if Ok(s) {
      if Align(MsgLen(s)) <= |s| {
        AlignOfAlign(MsgLen(s));
        AlignedSum(at, Stride(s));
        SpansAreAligned(s[Stride(s)..], at + Stride(s));
      } else {
        assert s[Stride(s)..] == [];
      }
    }
  }

  ghost predicate Inside(xs: seq<Span>, k: nat) {
    exists i :: 0 <= i < |xs| && xs[i].start <= k < xs[i].start + xs[i].len
  }

  lemma WalkedStep(s: Bytes)
    requires Ok(s)
    ensures Walked(s) == Rewrite(s[..MsgLen(s)]) + s[MsgLen(s)..Stride(s)] + Walked(s[Stride(s)..])
    ensures Pubs(s) == Hand(s[..MsgLen(s)]) + Pubs(s[Stride(s)..])
  {
    hide Rewrite, Hand, Stride, MsgLen;
  }

  lemma ThreeParts(x: Bytes, y: Bytes, z: Bytes)
    ensures var w := x + y + z;
            w[..|x|] == x && w[|x|..|x| + |y|] == y && w[|x| + |y|..] == z
  {
  }

  lemma LenOfPrefix(s: Bytes, t: Bytes)
    requires |s| >= HDRLEN && |t| >= HDRLEN && forall i :: 0 <= i < 4 ==> s[i] == t[i]
    ensures MsgLen(s) == MsgLen(t)
  {
  }

  /** The three parts of a walked buffer that starts with a message. */
  lemma WalkedParts(s: Bytes)
    requires Ok(s)
    ensures var n, a, w := MsgLen(s), Stride(s), Walked(s);
            && w[..n] == Rewrite(s[..n]) && w[n..a] == s[n..a] && w[a..] == Walked(s[a..])
            && Ok(w) && MsgLen(w) == n && Stride(w) == a
  {
    hide Rewrite, Align, MsgLen, Walked, Pubs;
    var n, a, w := MsgLen(s), Stride(s), Walked(s);
    WalkedStep(s);
    ThreeParts(Rewrite(s[..n]), s[n..a], Walked(s[a..]));
    RewriteIsLocal(s[..n]);
    forall i | 0 <= i < 4 ensures w[i] == s[i] { assert w[i] == w[..n][i] == s[..n][i]; }
    LenOfPrefix(s, w);
  }

  lemma SpansStep(s: Bytes, at: nat)
    requires Ok(s)
    ensures Spans(s, at) == [Span(at, MsgLen(s))] + Spans(s[Stride(s)..], at + Stride(s))
  {
    hide MsgLen, Stride;
  }

  lemma NothingToWalk(s: Bytes)
    requires !Ok(s)
    ensures Walked(s) == s && Pubs(s) == []
  {
  }

  /** The messages stay where they are. */
  lemma {:induction false} WalkKeepsSpans(s: Bytes, at: nat)
    ensures Spans(Walked(s), at) == Spans(s, at)
    decreases |s|
  {
    hide Rewrite, Walked, MsgLen, Stride, Spans;
    if Ok(s) {
      WalkedParts(s);
      SpansStep(s, at);
      SpansStep(Walked(s), at);
      WalkKeepsSpans(s[Stride(s)..], at + Stride(s));
    } else {
      NothingToWalk(s);
    }
  }

  /** Bytes outside the messages stay as they are. */
  lemma {:induction false} WalkIsLocal(s: Bytes, at: nat, k: nat)
    requires k < |s| && !Inside(Spans(s, at), at + k)
    ensures Walked(s)[k] == s[k]
    decreases |s|
  {
    hide Rewrite, Walked, MsgLen, Stride, Spans;
    if Ok(s) {
      var n, a, w := MsgLen(s), Stride(s), Walked(s);
      WalkedParts(s);
      SpansStep(s, at);
      var xs, rest := Spans(s, at), Spans(s[a..], at + a);
      assert xs[0] == Span(at, n);
      if k >= a {
        assert forall i :: 0 <= i < |rest| ==> rest[i] == xs[i + 1];
        WalkIsLocal(s[a..], at + a, k - a);
        assert w[k] == w[a..][k - a];
      } else {
        assert w[k] == w[n..a][k - n];
      }
    } else {
      NothingToWalk(s);
    }
  }

  /** Walking the buffer again would change and publish nothing new. */
  lemma {:induction false} WalkIsIdempotent(s: Bytes)
    ensures Walked(Walked(s)) == Walked(s) && Pubs(Walked(s)) == Pubs(s)
    decreases |s|
  {
    hide Rewrite, MsgLen, Hand, Stride, Walked, Pubs;
    if Ok(s) {
      var n, a, w := MsgLen(s), Stride(s), Walked(s);
      WalkedParts(s);
      WalkedStep(s);
      WalkedStep(w);
      WalkIsIdempotent(s[a..]);
      RewriteIsIdempotent(s[..n]);
      assert w == w[..n] + w[n..a] + w[a..];
    } else {
      NothingToWalk(s);
    }
  }

  // ----- well-formed sequences of messages -----

  function Pad(m: Bytes): Bytes {
    m + seq(Align(|m|) - |m|, _ => 0)
  }

  lemma PadIsAligned(m: Bytes)
    ensures Aligned(|Pad(m)|) && |Pad(m)| == Align(|m|)
  {
  }

  /** Messages laid out one after the other, each padded to the alignment. */
  function Lay(ms: seq<Bytes>): (s: Bytes)
    ensures Aligned(|s|)
  {
    hide Align, Aligned, Pad;
    if ms == [] then assert Aligned(0) by { AlignedIsMultiple(0); } []
    else
      PadIsAligned(ms[0]);
      AlignedSum(|Pad(ms[0])|, |Lay(ms[1..])|);
      Pad(ms[0]) + Lay(ms[1..])
  }

  function HandAll(ms: seq<Bytes>): seq<Pub>
    requires forall m :: m in ms ==> IsMessage(m)
  {
    if ms == [] then [] else assert ms[0] in ms && IsMessage(ms[0]); Hand(ms[0]) + HandAll(ms[1..])
  }

  /** Every message that was laid out is found and handled, whole and in order. */
  lemma {:induction false} WalkFindsAll(ms: seq<Bytes>)
    requires forall m :: m in ms ==> IsMessage(m)
    ensures Pubs(Lay(ms)) == HandAll(ms)
    decreases |ms|
  {
    hide Align, Aligned, MsgLen, Hand;
    if ms != [] {
      var m, s := ms[0], Lay(ms);
      assert m in ms && forall x :: x in ms[1..] ==> x in ms;
      PadIsAligned(m);
      assert s[..|m|] == m && s[Align(|m|)..] == Lay(ms[1..]);
      LenOfPrefix(s, m);
      assert Stride(s) == Align(|m|);
      WalkFindsAll(ms[1..]);
    }
  }

  // ----- the unsigned length -----

  /** Somewhere along the walk the remaining length is less than what is taken from it. */
  predicate Underflows(s: Bytes)
    decreases |s|
  {
    Ok(s) && (Align(MsgLen(s)) > |s| || Underflows(s[Align(MsgLen(s))..]))
  }

  lemma {:induction false} AlignedIsSafe(s: Bytes)
    requires Aligned(|s|)
    ensures !Underflows(s)
    decreases |s|
  {
    hide Align, Aligned, MsgLen;
    if Ok(s) {
      AlignFits(MsgLen(s), |s|);
      AlignedIsSafe(s[Align(MsgLen(s))..]);
    }
  }

  function Le32(n: nat): (s: Bytes)
    requires n < 0x1_0000_0000
    ensures |s| == 4 && U32(s, 0) == n
  {
    var q1 := n / 0x100;
    var q2 := q1 / 0x100;
    var q3 := q2 / 0x100;
    [n % 0x100, q1 % 0x100, q2 % 0x100, q3]
  }

  lemma UnalignedGrows(n: nat)
    requires !Aligned(n)
    ensures Align(n) > n
  {
  }

  /** For which buffer lengths the walk is safe whatever the buffer holds. */
  lemma LengthsThatAreSafe(len: nat)
    requires len < 0x1_0000_0000
    ensures (forall s: Bytes :: |s| == len ==> !Underflows(s)) <==> Aligned(len) || len < HDRLEN
  {
    hide Align, Aligned, Le32;
    if Aligned(len) {
      forall s: Bytes | |s| == len ensures !Underflows(s) { AlignedIsSafe(s); }
    } else if len >= HDRLEN {
      var s := Le32(len) + seq(len - 4, _ => 0);
      assert |s| == len && MsgLen(s) == U32(Le32(len), 0);
      assert Align(len) > len by { UnalignedGrows(len); }
      assert Underflows(s);
    }
  }

  /** Store one byte of the message at `at`, if `c` holds. */
  method StoreIf(c: bool, buf: array<byte>, at: nat, n: nat, k: nat, v: byte)
    requires at + n <= buf.Length && k < n
    modifies buf
    ensures buf[at..at + n] == PutIf(c, old(buf[at..at + n]), k, v)
    ensures buf[..at] == old(buf[..at]) && buf[at + n..] == old(buf[at + n..])
  {
    if c {
      buf[at + k] := v;
    }
  }

  /** process_rtnl and the flag update: the message at `at` is rewritten where it stands. */
  method RewriteAt(buf: array<byte>, at: nat, n: nat) returns (out: seq<Pub>)
    requires at + n <= buf.Length && n >= HDRLEN
    modifies buf
    ensures buf[..] == old(buf[..at]) + Rewrite(old(buf[at..at + n])) + old(buf[at + n..])
    ensures out == Hand(old(buf[at..at + n]))
  {
    hide U32, MsgType, PutIf;
    var m := buf[at..at + n];
    out := [];
    var ty := MsgType(m);
    StoreIf(ty == RTM_NEWROUTE, buf, at, n, FLAGS_HI, SetReplace(m[FLAGS_HI]));
    if (ty == RTM_NEWROUTE || ty == RTM_DELROUTE) && n >= RTLEN {
      var pri := if m[PROTOCOL] == RTPROT_KERNEL then 0 else 2;
      StoreIf(pri == 0 && m[FAMILY] == AF_INET && m[SCOPE] == RT_SCOPE_LINK, buf, at, n, SCOPE, RT_SCOPE_UNIVERSE);
      StoreIf(m[TABLE] == RT_TABLE_UNSPEC, buf, at, n, TABLE, RT_TABLE_MAIN);
      StoreIf(ty == RTM_DELROUTE && U32(m, 12) != 0 && m[TYPE] == RTN_UNSPEC, buf, at, n, TYPE, RTN_UNICAST);
      out := [Pub(buf[at..at + n], pri)];
    }
    assert buf[..] == buf[..at] + buf[at..at + n] + buf[at + n..];
  }

  lemma Regroup(before: Bytes, x: Bytes, y: Bytes, z: Bytes, after: Bytes)
    ensures before + (x + y + z) + after == (before + x + y) + z + after
  {
  }

  /** One turn of the walk, on values. */
  lemma WalkTurn(before: Bytes, s: Bytes, after: Bytes)
    requires Ok(s)
    ensures var n, a := MsgLen(s), Stride(s);
            && before + Walked(s) + after == (before + Rewrite(s[..n]) + s[n..a]) + Walked(s[a..]) + after
            && Pubs(s) == Hand(s[..n]) + Pubs(s[a..])
  {
    hide Rewrite, Hand, MsgLen, Stride, Walked, Pubs;
    WalkedStep(s);
    var n, a := MsgLen(s), Stride(s);
    Regroup(before, Rewrite(s[..n]), s[n..a], Walked(s[a..]), after);
  }

  /** The buffer before and after one message was rewritten, in the parts that the walk looks at. */
  lemma TurnSlices(all: Bytes, now: Bytes, at: nat, r: Bytes, a: nat, rest: nat)
    requires |r| <= a <= rest && at + rest <= |all|
    requires now == all[..at] + r + all[at + |r|..]
    ensures |now| == |all|
    ensures now[..at + a] == all[..at] + r + all[at..at + rest][|r|..a]
    ensures now[at + a..at + rest] == all[at..at + rest][a..]
    ensures now[at + rest..] == all[at + rest..]
  {
    var t := all[at..at + rest];
    assert forall i :: 0 <= i < rest ==> t[i] == all[at + i];
    assert t[|r|..a] == all[at + |r|..at + a] && t[a..] == all[at + a..at + rest];
  }

  /** The buffer once the `rest` bytes at `at` are walked. */
  function Finish(all: Bytes, at: nat, rest: nat): Bytes
    requires at + rest <= |all|
  {
    all[..at] + Walked(all[at..at + rest]) + all[at + rest..]
  }

  /** One turn of the loop: the message at `nlh`, `n` bytes long, is dealt with. */
  method Turn(buf: array<byte>, nlh: nat, rest: nat) returns (n: nat, pubs: seq<Pub>)
    requires nlh + rest <= buf.Length && Ok(buf[..][nlh..nlh + rest])
    modifies buf
    ensures var t := old(buf[..])[nlh..nlh + rest];
            && n == MsgLen(t)
            && Finish(buf[..], nlh + Stride(t), rest - Stride(t)) == Finish(old(buf[..]), nlh, rest)
            && buf[..][nlh + Stride(t)..nlh + rest] == t[Stride(t)..]
            && pubs + Pubs(t[Stride(t)..]) == Pubs(t)
  {
    hide Walked, Pubs, Rewrite, Hand, U32, Stride;
    ghost var all := buf[..];
    ghost var t := all[nlh..nlh + rest];
    assert t == buf[nlh..nlh + rest];
    n := MsgLen(buf[nlh..nlh + rest]);
    assert t[..n] == buf[nlh..nlh + n] && all[..nlh] == buf[..nlh] && all[nlh + n..] == buf[nlh + n..];
    WalkTurn(all[..nlh], t, all[nlh + rest..]);
    pubs := RewriteAt(buf, nlh, n);
    TurnSlices(all, buf[..], nlh, Rewrite(t[..n]), Stride(t), rest);
  }

  lemma NothingLeft(all: Bytes, at: nat, rest: nat)
    requires at + rest <= |all| && !Ok(all[at..at + rest])
    ensures Finish(all, at, rest) == all && Pubs(all[at..at + rest]) == [] && !Underflows(all[at..at + rest])
  {
    NothingToWalk(all[at..at + rest]);
    assert all == all[..at] + all[at..at + rest] + all[at + rest..];
  }

  /**
   process_nlmsg: walk and rewrite `len` bytes at `at`.  `wrapped` tells that the
   unsigned remaining length went below zero; the source would read on past the
   end of the buffer there, and the model stops.
   */
  method ProcessNlmsg(buf: array<byte>, at: nat, len: nat) returns (out: seq<Pub>, wrapped: bool)
    requires at + len <= buf.Length
    modifies buf
    ensures buf[..] == Finish(old(buf[..]), at, len)
    ensures out == Pubs(old(buf[..])[at..at + len])
    ensures wrapped <==> Underflows(old(buf[..])[at..at + len])
  {
    hide Finish, Pubs, MsgLen, Align;
    var nlh: nat, rest: nat := at, len;
    out, wrapped := [], false;
    while Ok(buf[..][nlh..nlh + rest])
      invariant at <= nlh && nlh + rest == at + len && !wrapped
      invariant Finish(buf[..], nlh, rest) == Finish(old(buf[..]), at, len)
      invariant out + Pubs(buf[..][nlh..nlh + rest]) == Pubs(old(buf[..])[at..at + len])
      invariant Underflows(buf[..][nlh..nlh + rest]) <==> Underflows(old(buf[..])[at..at + len])
      decreases rest
    {
      ghost var t := buf[..][nlh..nlh + rest];
      var n, pubs := Turn(buf, nlh, rest);
      out := out + pubs;
      if Align(n) > rest {
        assert t[Stride(t)..] == [];
        NothingLeft(buf[..], nlh + rest, 0);
        wrapped := true;
        return;
      }
      rest := Minus(rest, Align(n));
      nlh := nlh + Align(n);
    }
    NothingLeft(buf[..], nlh, rest);
  }
}
