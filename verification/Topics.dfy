/**
 The topic of a route message (broker/topic.c, default build).  It is the key of
 the hash table, so messages must get the same topic exactly if they are about
 the same route.
 */
module Topics {
  import opened Netlink
  import opened Options
  import opened TopicText

  type u32 = x: nat | x < 0x1_0000_0000

  const ROUTE_TOPIC_LEN: nat := 204
  const AF_INET6: byte := 10
  const AF_MPLS: byte := 28
  const RTNL_FAMILY_IPMR: byte := 128
  const RTNL_FAMILY_IP6MR: byte := 129
  const RTN_BROADCAST: byte := 3
  const RTN_MULTICAST: byte := 5
  const RT_TABLE_LOCAL: byte := 255

  /** A route message after mnl_attr_parse; `parsed` tells whether that succeeded. */
  datatype Message = Message(
    msgType: nat, family: byte, dstLen: byte, srcLen: byte, table: byte, scope: byte, rtype: byte, flags: u32,
    parsed: bool, dst: Option<Bytes>, src: Option<Bytes>, iif: Option<u32>, oif: Option<u32>, tableAttr: Option<u32>)

  /** An address as inet_ntop is asked to print it; Null stands for a family that it does not know. */
  datatype Addr = V4(a: Bytes) | V6(a: Bytes) | Null

  /** What identifies a route. */
  datatype Key =
    | Unicast(dest: Addr, dstLen: byte, scope: byte, table: u32)
    | Multicast(iif: int, oif: int, group: Addr, dstLen: byte, origin: Addr, srcLen: byte, table: u32)
    | Mpls(lbl: nat)

  datatype Topic = Ignored | Topic(text: string, del: bool)

  // ----- printing -----

  function Digit(d: nat): char
    requires d < 10
  {
    "0123456789"[d]
  }

  /** %u */
  function Dec(n: nat): (s: string)
    ensures s != [] && forall c :: c in s ==> c in "0123456789"
    ensures s[0] == '0' ==> n == 0 && |s| == 1
  {
    if n < 10 then [Digit(n)] else Dec(n / 10) + [Digit(n % 10)]
  }

  /** %d */
  function DecInt(i: int): string {
    if i < 0 then "-" + Dec(-i) else Dec(i)
  }

  /** An interface index is read as unsigned and printed as int. */
  function ToInt(u: u32): int {
    if u < 0x8000_0000 then u else u - 0x1_0000_0000
  }

  /** inet_ntop for AF_INET. */
  function Dotted(a: Bytes): string
    requires |a| == 4
  {
    Field(Dec(a[0]), '.', Field(Dec(a[1]), '.', Field(Dec(a[2]), '.', Dec(a[3]))))
  }

  /** inet_ntop for AF_INET6 is taken as given, with this contract. */
  ghost predicate GoodNtop6(ntop6: Bytes -> string) {
    && (forall a: Bytes, b: Bytes :: |a| == 16 && |b| == 16 && ntop6(a) == ntop6(b) ==> a == b)
    && (forall a: Bytes :: |a| == 16 ==>
          |ntop6(a)| <= 45 && ':' in ntop6(a) && '/' !in ntop6(a) && ' ' !in ntop6(a))
  }

  predicate ValidAddr(x: Addr) {
    match x
    case V4(a) => |a| == 4
    case V6(a) => |a| == 16
    case Null => true
  }

  /** What the C library prints for %s and NULL. */
  const NULL_TEXT := "(null)"

  function PrintAddr(x: Addr, ntop6: Bytes -> string): string
    requires ValidAddr(x)
  {
    match x
    case V4(a) => Dotted(a)
    case V6(a) => ntop6(a)
    case Null => NULL_TEXT
  }

  predicate ValidKey(k: Key) {
    match k
    case Unicast(d, _, _, _) => ValidAddr(d)
    case Multicast(i, o, g, _, s, _, _) =>
      ValidAddr(g) && ValidAddr(s) && -0x8000_0000 <= i < 0x8000_0000 && -0x8000_0000 <= o < 0x8000_0000
    case Mpls(l) => l < 0x10_0000
  }

  function Prefix(a: Addr, n: byte, ntop6: Bytes -> string): string
    requires ValidAddr(a)
  {
    Field(PrintAddr(a, ntop6), '/', Dec(n))
  }

  function Print(k: Key, ntop6: Bytes -> string): string
    requires ValidKey(k)
  {
    match k
    case Unicast(d, n, scope, table) =>
      Field("r", ' ', Field(Prefix(d, n, ntop6), ' ', Field(Dec(scope), ' ', Dec(table))))
    case Multicast(i, o, g, n, s, m, table) =>
      Field("route", ' ', Field(DecInt(i), ' ', Field(DecInt(o), ' ', Field(Prefix(g, n, ntop6), ' ',
        Field(Prefix(s, m, ntop6), ' ', Dec(table))))))
    case Mpls(l) => Field("route-mpls", ' ', Dec(l))
  }

  // ----- from a message to its key -----

  const ANY: Bytes := [0, 0, 0, 0, 0, 0, 0, 0, 0, 0, 0, 0, 0, 0, 0, 0]

  function Payload(x: Option<Bytes>): Bytes {
    if x.Some? then x.value else ANY
  }

  function TableOf(m: Message): u32 {
    if m.tableAttr.Some? then m.tableAttr.value else m.table
  }

  function Shift(a: nat, b: nat, c: nat): nat {
    a * 0x1000 + b * 0x10 + c / 0x10
  }

  /** mpls_ls_get_label on a label stack entry in network order. */
  function Label(b: Bytes): (l: nat)
    requires |b| >= 4
    ensures l < 0x10_0000
  {
    Shift(b[0], b[1], b[2])
  }

  predicate Cloned(flags: u32) {
    flags / 0x200 % 2 == 1
  }

  /**
   Which messages are about a route that clients should hear of, in the kernel's
   numbers: adds (24) and deletes (25) that parse; of MPLS (family 28) those with
   a label, of multicast (type 5) those outside the local table (255), of others
   those that are neither broadcast (type 3) nor cloned (flag 0x200).
   */
  predicate HasTopic(m: Message) {
    && m.msgType in {24, 25} && m.parsed
    && (m.family == 28 ==> m.dst.Some?)
    && (m.family != 28 && m.rtype == 5 ==> m.table != 255)
    && (m.family != 28 && m.rtype != 5 ==> m.rtype != 3 && m.flags / 0x200 % 2 == 0)
  }

  datatype Af = Inet | Inet6 | Unknown

  /** The family that inet_ntop is called with: mroute_ntop translates, unicast routes pass theirs on. */
  function AfOf(m: Message): Af {
    if m.rtype == RTN_MULTICAST then
      if m.family == RTNL_FAMILY_IPMR then Inet else if m.family == RTNL_FAMILY_IP6MR then Inet6 else Unknown
    else
      if m.family == AF_INET then Inet else if m.family == AF_INET6 then Inet6 else Unknown
  }

  function Width(af: Af): nat {
    match af
    case Inet => 4
    case Inet6 => 16
    case Unknown => 0
  }

  /** Attributes that are read are as long as what is read from them. */
  predicate WellFormed(m: Message) {
    HasTopic(m) ==>
      if m.family == AF_MPLS then |m.dst.value| >= 4
      else |Payload(m.dst)| >= Width(AfOf(m)) && (m.rtype == RTN_MULTICAST ==> |Payload(m.src)| >= Width(AfOf(m)))
  }

  function AddrOf(af: Af, b: Bytes): Addr
    requires |b| >= Width(af)
  {
    match af
    case Inet => V4(b[..4])
    case Inet6 => V6(b[..16])
    case Unknown => Null
  }

  /** mplsroute_topic. */
  function MplsKey(m: Message): Option<Key>
    requires WellFormed(m) && m.family == AF_MPLS && m.msgType in {RTM_NEWROUTE, RTM_DELROUTE}
  {
    if !m.parsed then None
    else if m.dst.Some? then Some(Mpls(Label(m.dst.value)))
    else None
  }

  /** mroute_topic. */
  function MrouteKey(m: Message): Option<Key>
    requires WellFormed(m) && m.family != AF_MPLS && m.rtype == RTN_MULTICAST
    requires m.msgType in {RTM_NEWROUTE, RTM_DELROUTE}
  {
    if m.table == RT_TABLE_LOCAL then None
    else if !m.parsed then None
    else
      var ifindex := if m.iif.Some? then ToInt(m.iif.value) else 0;
      var oifindex := if m.oif.Some? then ToInt(m.oif.value) else 0;
      Some(Multicast(ifindex, oifindex, AddrOf(AfOf(m), Payload(m.dst)), m.dstLen,
                     AddrOf(AfOf(m), Payload(m.src)), m.srcLen, TableOf(m)))
  }

  /** route_topic, up to printing: the key, unless the message is to be ignored. */
  function RouteKey(m: Message): (r: Option<Key>)
    requires WellFormed(m)
    ensures r.Some? ==> ValidKey(r.value)
  {
    if m.msgType != RTM_NEWROUTE && m.msgType != RTM_DELROUTE then None
    else if m.family == AF_MPLS then MplsKey(m)
    else if m.rtype == RTN_MULTICAST then MrouteKey(m)
    else if m.rtype == RTN_BROADCAST then None
    else if Cloned(m.flags) then None
    else if !m.parsed then None
    else Some(Unicast(AddrOf(AfOf(m), Payload(m.dst)), m.dstLen, m.scope, TableOf(m)))
  }

  /** snprintf into a buffer of ROUTE_TOPIC_LEN bytes: what does not fit is cut off. */
  function Truncate(s: string): string {
    if |s| < ROUTE_TOPIC_LEN then s else s[..ROUTE_TOPIC_LEN - 1]
  }

  /** route_topic. */
  function RouteTopic(m: Message, ntop6: Bytes -> string): Topic
    requires WellFormed(m)
  {
    match RouteKey(m)
    case None => Ignored
    case Some(k) => Topic(Truncate(Print(k, ntop6)), m.msgType == RTM_DELROUTE)
  }

  // ----- printing loses nothing -----

  lemma {:induction false} ValueOfDec(n: nat)
    ensures Value(Dec(n)) == n
  {
    var s := Dec(n);
    if n >= 10 {
      ValueOfDec(n / 10);
      assert s[..|s| - 1] == Dec(n / 10);
    }
  }

  lemma DecReads(n: nat)
    ensures Value(Dec(n)) == n && ' ' !in Dec(n) && '/' !in Dec(n) && '.' !in Dec(n)
  {
    hide Dec, Value;
    ValueOfDec(n);
  }

  lemma DecIntReads(i: int)
    ensures IntValue(DecInt(i)) == i && ' ' !in DecInt(i)
  {
    hide Dec, Value;
    if i < 0 {
      DecReads(-i);
      assert DecInt(i)[1..] == Dec(-i);
    } else {
      DecReads(i);
      assert Dec(i)[0] in Dec(i);
    }
  }

  /** A dotted quad says its four bytes. */
  lemma DottedReads(a: Bytes)
    requires |a| == 4
    ensures Quad(Dotted(a)) == a
    ensures forall c :: c in Dotted(a) ==> c in "0123456789."
  {
    hide Dec, Value, Split;
    DecReads(a[0]);
    DecReads(a[1]);
    DecReads(a[2]);
    DecReads(a[3]);
    var last := Field(Dec(a[2]), '.', Dec(a[3]));
    SplitOne(Dec(a[3]), '.');
    SplitField(Dec(a[2]), '.', Dec(a[3]));
    SplitField(Dec(a[1]), '.', last);
    SplitField(Dec(a[0]), '.', Field(Dec(a[1]), '.', last));
    assert Split(Dotted(a), '.') == [Dec(a[0]), Dec(a[1]), Dec(a[2]), Dec(a[3])];
  }

  lemma DottedInjective(a: Bytes, b: Bytes)
    requires |a| == 4 && |b| == 4 && Dotted(a) == Dotted(b)
    ensures a == b
  {
    hide Dotted, Quad;
    DottedReads(a);
    DottedReads(b);
  }

  lemma AddrPlain(x: Addr, ntop6: Bytes -> string)
    requires ValidAddr(x) && GoodNtop6(ntop6)
    ensures '/' !in PrintAddr(x, ntop6) && ' ' !in PrintAddr(x, ntop6)
  {
    hide Dotted;
    if x.V4? { DottedReads(x.a); }
  }

  lemma AddrInjective(x: Addr, y: Addr, ntop6: Bytes -> string)
    requires ValidAddr(x) && ValidAddr(y) && GoodNtop6(ntop6)
    ensures PrintAddr(x, ntop6) == PrintAddr(y, ntop6) ==> x == y
  {
    hide Dotted, Quad;
    if x.V4? { DottedReads(x.a); }
    if y.V4? { DottedReads(y.a); }
    assert '(' in NULL_TEXT && ':' !in NULL_TEXT;
  }

  lemma PrefixReads(a: Addr, n: byte, ntop6: Bytes -> string)
    requires ValidAddr(a) && GoodNtop6(ntop6)
    ensures var w := Prefix(a, n, ntop6);
            ' ' !in w && IsPrefix(w) && Address(w) == PrintAddr(a, ntop6) && Length(w) == n
  {
    hide Dec, Value, Split, PrintAddr, GoodNtop6;
    AddrPlain(a, ntop6);
    DecReads(n);
    SplitOne(Dec(n), '/');
    SplitField(PrintAddr(a, ntop6), '/', Dec(n));
  }

  /** What the topic of a key should say. */
  function Says(k: Key, ntop6: Bytes -> string): Reading
    requires ValidKey(k)
  {
    match k
    case Unicast(d, n, scope, table) => UnicastText(PrintAddr(d, ntop6), n, scope, table)
    case Multicast(i, o, g, n, s, m, table) =>
      MulticastText(i, o, PrintAddr(g, ntop6), n, PrintAddr(s, ntop6), m, table)
    case Mpls(l) => MplsText(l)
  }

  lemma UnicastReads(k: Key, ntop6: Bytes -> string)
    requires ValidKey(k) && GoodNtop6(ntop6) && k.Unicast?
    ensures ReadTopic(Print(k, ntop6)) == Says(k, ntop6)
  {
    hide Dec, Value, Split, PrintAddr, Prefix, GoodNtop6, ValidAddr, Field, IsPrefix, Address, Length;
    var p, scope, table := Prefix(k.dest, k.dstLen, ntop6), Dec(k.scope), Dec(k.table);
    PrefixReads(k.dest, k.dstLen, ntop6);
    DecReads(k.scope);
    DecReads(k.table);
    SplitOne(table, ' ');
    SplitField(scope, ' ', table);
    SplitField(p, ' ', Field(scope, ' ', table));
    SplitField("r", ' ', Field(p, ' ', Field(scope, ' ', table)));
    assert Split(Print(k, ntop6), ' ') == ["r", p, scope, table];
  }

  lemma MulticastReads(k: Key, ntop6: Bytes -> string)
    requires ValidKey(k) && GoodNtop6(ntop6) && k.Multicast?
    ensures ReadTopic(Print(k, ntop6)) == Says(k, ntop6)
  {
    hide Dec, DecInt, Value, IntValue, Split, PrintAddr, Prefix, GoodNtop6, ValidAddr, Field, IsPrefix, Address, Length;
    var g, s := Prefix(k.group, k.dstLen, ntop6), Prefix(k.origin, k.srcLen, ntop6);
    PrefixReads(k.group, k.dstLen, ntop6);
    PrefixReads(k.origin, k.srcLen, ntop6);
    DecIntReads(k.iif);
    DecIntReads(k.oif);
    DecReads(k.table);
    var i, o, table := DecInt(k.iif), DecInt(k.oif), Dec(k.table);
    var t3 := Field(s, ' ', table);
    var t2 := Field(g, ' ', t3);
    var t1 := Field(o, ' ', t2);
    SplitOne(table, ' ');
    SplitField(s, ' ', table);
    SplitField(g, ' ', t3);
    SplitField(o, ' ', t2);
    SplitField(i, ' ', t1);
    SplitField("route", ' ', Field(i, ' ', t1));
    assert Split(Print(k, ntop6), ' ') == ["route", i, o, g, s, table];
  }

  lemma MplsReads(k: Key, ntop6: Bytes -> string)
    requires ValidKey(k) && k.Mpls?
    ensures ReadTopic(Print(k, ntop6)) == Says(k, ntop6)
  {
    hide Dec, Value, Split, Field;
    DecReads(k.lbl);
    SplitOne(Dec(k.lbl), ' ');
    SplitField("route-mpls", ' ', Dec(k.lbl));
    assert Split(Print(k, ntop6), ' ') == ["route-mpls", Dec(k.lbl)];
  }

  /** Round trip: a topic reads as its key. */
  lemma PrintReads(k: Key, ntop6: Bytes -> string)
    requires ValidKey(k) && GoodNtop6(ntop6)
    ensures ReadTopic(Print(k, ntop6)) == Says(k, ntop6)
  {
    match k
    case Unicast(_, _, _, _) => UnicastReads(k, ntop6);
    case Multicast(_, _, _, _, _, _, _) => MulticastReads(k, ntop6);
    case Mpls(_) => MplsReads(k, ntop6);
  }

  lemma PrintInjective(k: Key, j: Key, ntop6: Bytes -> string)
    requires ValidKey(k) && ValidKey(j) && GoodNtop6(ntop6)
    ensures Print(k, ntop6) == Print(j, ntop6) <==> k == j
  {
    hide Print, PrintAddr, ReadTopic, GoodNtop6;
    PrintReads(k, ntop6);
    PrintReads(j, ntop6);
    if k.Unicast? && j.Unicast? { AddrInjective(k.dest, j.dest, ntop6); }
    if k.Multicast? && j.Multicast? {
      AddrInjective(k.group, j.group, ntop6);
      AddrInjective(k.origin, j.origin, ntop6);
    }
  }

  // ----- no topic is cut off -----

  function Pow10(k: nat): nat {
    if k == 0 then 1 else 10 * Pow10(k - 1)
  }

  lemma {:induction false} DecLength(n: nat, k: nat)
    requires k > 0 && n < Pow10(k)
    ensures |Dec(n)| <= k
  {
    if n >= 10 {
      assert k > 1;
      DecLength(n / 10, k - 1);
    }
  }

  lemma SmallDecs(b: byte, u: u32)
    ensures |Dec(b)| <= 3 && |Dec(u)| <= 10
  {
    assert Pow10(3) == 1000;
    assert Pow10(10) == 10_000_000_000 by { assert Pow10(6) == 1_000_000; assert Pow10(9) == 1_000_000_000; }
    DecLength(b, 3);
    DecLength(u, 10);
  }

  lemma AddrLength(x: Addr, ntop6: Bytes -> string)
    requires ValidAddr(x) && GoodNtop6(ntop6)
    ensures |PrintAddr(x, ntop6)| <= 45
  {
    hide Dec;
    if x.V4? {
      SmallDecs(x.a[0], 0);
      SmallDecs(x.a[1], 0);
      SmallDecs(x.a[2], 0);
      SmallDecs(x.a[3], 0);
    }
  }

  lemma PrintFits(k: Key, ntop6: Bytes -> string)
    requires ValidKey(k) && GoodNtop6(ntop6)
    ensures 0 < |Print(k, ntop6)| < 204
  {
    hide Dec, PrintAddr, GoodNtop6;
    match k
    case Unicast(d, n, scope, table) =>
      AddrLength(d, ntop6);
      SmallDecs(n, table);
      SmallDecs(scope, table);
    case Multicast(i, o, g, n, s, m, table) =>
      AddrLength(g, ntop6);
      AddrLength(s, ntop6);
      SmallDecs(n, table);
      SmallDecs(m, table);
      SmallDecs(0, if i < 0 then -i else i);
      SmallDecs(0, if o < 0 then -o else o);
    case Mpls(l) =>
      SmallDecs(0, l);
  }

  // ----- what the topics identify -----

  function OrZero(x: Option<u32>): u32 {
    if x.Some? then x.value else 0
  }

  /** As far as they are printed, the addresses agree; of an unknown family nothing is printed. */
  predicate SameAddr(m: Message, a: Option<Bytes>, n: Message, b: Option<Bytes>)
    requires |Payload(a)| >= Width(AfOf(m)) && |Payload(b)| >= Width(AfOf(n))
  {
    AfOf(m) == AfOf(n) && Payload(a)[..Width(AfOf(m))] == Payload(b)[..Width(AfOf(n))]
  }

  /** The same table: RTA_TABLE counts if it is there, else the field of the header. */
  predicate SameTable(m: Message, n: Message) {
    match (m.tableAttr, n.tableAttr)
    case (Some(t), Some(u)) => t == u
    case (Some(t), None) => t == n.table
    case (None, Some(u)) => m.table == u
    case (None, None) => m.table == n.table
  }

  /** Two messages agree in all that a topic is made of, told from their own fields. */
  predicate SameKey(m: Message, n: Message)
    requires WellFormed(m) && WellFormed(n) && HasTopic(m) && HasTopic(n)
  {
    if m.family == 28 || n.family == 28 then
      // the 20-bit label; class, bottom-of-stack and TTL do not matter
      && m.family == n.family && m.dst.value[0] == n.dst.value[0] && m.dst.value[1] == n.dst.value[1]
      && m.dst.value[2] / 0x10 == n.dst.value[2] / 0x10
    else if m.rtype == 5 || n.rtype == 5 then
      && m.rtype == n.rtype && OrZero(m.iif) == OrZero(n.iif) && OrZero(m.oif) == OrZero(n.oif)
      && SameAddr(m, m.dst, n, n.dst) && m.dstLen == n.dstLen
      && SameAddr(m, m.src, n, n.src) && m.srcLen == n.srcLen && SameTable(m, n)
    else
      SameAddr(m, m.dst, n, n.dst) && m.dstLen == n.dstLen && m.scope == n.scope && SameTable(m, n)
  }

  /** The 20 bits at the top of an entry in network order. */
  predicate TopBits(l: nat, b: Bytes)
    requires |b| >= 4
  {
    var entry := 0x1_0000 * b[0] as nat + 0x100 * b[1] as nat + b[2]; // without the last byte
    0x10 * l <= entry < 0x10 * l + 0x10
  }

  lemma LabelIsTopBits(b: Bytes)
    requires |b| >= 4
    ensures TopBits(Label(b), b)
  {
  }

  /** The label tells the first 20 bits of the entry and no more. */
  lemma LabelInjective(a: Bytes, b: Bytes)
    requires |a| >= 4 && |b| >= 4
    ensures Label(a) == Label(b) <==> a[0] == b[0] && a[1] == b[1] && a[2] / 0x10 == b[2] / 0x10
  {
  }

  lemma KeysAreTheKeys(m: Message, n: Message)
    requires WellFormed(m) && WellFormed(n)
    ensures RouteKey(m).Some? <==> HasTopic(m)
    ensures HasTopic(m) && HasTopic(n) ==> (RouteKey(m) == RouteKey(n) <==> SameKey(m, n))
  {
    hide Label;
    if m.family == AF_MPLS && n.family == AF_MPLS && HasTopic(m) && HasTopic(n) {
      LabelInjective(m.dst.value, n.dst.value);
    }
  }

  predicate SameTopic(m: Message, n: Message, ntop6: Bytes -> string)
    requires WellFormed(m) && WellFormed(n)
  {
    && RouteTopic(m, ntop6).Topic? && RouteTopic(n, ntop6).Topic?
    && RouteTopic(m, ntop6).text == RouteTopic(n, ntop6).text
  }

  /** Messages get the same topic exactly if they agree in the key, and no topic is cut off to fit its buffer. */
  lemma TopicsAreKeys(m: Message, n: Message, ntop6: Bytes -> string)
    requires WellFormed(m) && WellFormed(n) && HasTopic(m) && HasTopic(n) && GoodNtop6(ntop6)
    ensures SameTopic(m, n, ntop6) <==> SameKey(m, n)
    ensures RouteTopic(m, ntop6).Topic? && 0 < |RouteTopic(m, ntop6).text| < 204
    ensures RouteTopic(m, ntop6).del <==> m.msgType == 25
  {
    hide Print, GoodNtop6, HasTopic, WellFormed, RouteKey, SameKey;
    KeysAreTheKeys(m, n);
    KeysAreTheKeys(n, m);
    var k, j := RouteKey(m).value, RouteKey(n).value;
    PrintFits(k, ntop6);
    PrintFits(j, ntop6);
    PrintInjective(k, j, ntop6);
  }

  /** The text names the table of the message. */
  predicate TellsTable(t: nat, m: Message) {
    match m.tableAttr
    case Some(u) => t == u
    case None => t == m.table
  }

  /** The number is the attribute, zero without it, as a signed 32-bit integer. */
  predicate TellsIndex(i: int, x: Option<u32>) {
    -0x8000_0000 <= i < 0x8000_0000 && (if x.Some? then i == x.value || i + 0x1_0000_0000 == x.value else i == 0)
  }

  /** The text is the address in the attribute, or the zero address; no address is known for other families. */
  predicate TellsAddr(text: string, is4: bool, is6: bool, x: Option<Bytes>, ntop6: Bytes -> string) {
    if is4 then if x.Some? then |x.value| >= 4 && Quad(text) == x.value[..4] else Quad(text) == [0, 0, 0, 0]
    else if is6 then
      if x.Some? then |x.value| >= 16 && text == ntop6(x.value[..16]) else text == ntop6(seq(16, _ => 0))
    else text == "(null)"
  }

  lemma AddrTells(af: Af, x: Option<Bytes>, ntop6: Bytes -> string)
    requires |Payload(x)| >= Width(af)
    ensures TellsAddr(PrintAddr(AddrOf(af, Payload(x)), ntop6), af == Inet, af == Inet6, x, ntop6)
  {
    hide Dotted, Quad;
    if af == Inet { DottedReads(Payload(x)[..4]); }
    assert ANY == seq(16, _ => 0) && ANY[..16] == ANY;
  }

  lemma KeyTellsFields(m: Message, ntop6: Bytes -> string)
    requires WellFormed(m) && HasTopic(m) && RouteKey(m).Some?
    ensures match RouteKey(m).value
            case Unicast(d, n, scope, table) =>
              && m.family != 28 && m.rtype != 5
              && TellsAddr(PrintAddr(d, ntop6), m.family == 2, m.family == 10, m.dst, ntop6) && n == m.dstLen
              && scope == m.scope && TellsTable(table, m)
            case Multicast(i, o, g, n, a, k, table) =>
              && m.family != 28 && m.rtype == 5 && TellsIndex(i, m.iif) && TellsIndex(o, m.oif)
              && TellsAddr(PrintAddr(g, ntop6), m.family == 128, m.family == 129, m.dst, ntop6) && n == m.dstLen
              && TellsAddr(PrintAddr(a, ntop6), m.family == 128, m.family == 129, m.src, ntop6) && k == m.srcLen
              && TellsTable(table, m)
            case Mpls(l) => m.family == 28 && m.dst.Some? && |m.dst.value| >= 4 && TopBits(l, m.dst.value)
  {
    hide TellsAddr, PrintAddr, Label, AddrOf, TopBits;
    if m.family == 28 {
      LabelIsTopBits(m.dst.value);
    } else {
      AddrTells(AfOf(m), m.dst, ntop6);
      if m.rtype == 5 { AddrTells(AfOf(m), m.src, ntop6); }
    }
  }

  /** A topic tells the kind of the route and the fields of the message that it was made from. */
  lemma TopicTellsFields(m: Message, ntop6: Bytes -> string)
    requires WellFormed(m) && HasTopic(m) && GoodNtop6(ntop6)
    ensures RouteTopic(m, ntop6).Topic?
    ensures match ReadTopic(RouteTopic(m, ntop6).text)
            case UnicastText(dest, dstLen, scope, table) =>
              && m.family != 28 && m.rtype != 5
              && TellsAddr(dest, m.family == 2, m.family == 10, m.dst, ntop6) && dstLen == m.dstLen
              && scope == m.scope && TellsTable(table, m)
            case MulticastText(iif, oif, group, dstLen, origin, srcLen, table) =>
              && m.family != 28 && m.rtype == 5 && TellsIndex(iif, m.iif) && TellsIndex(oif, m.oif)
              && TellsAddr(group, m.family == 128, m.family == 129, m.dst, ntop6) && dstLen == m.dstLen
              && TellsAddr(origin, m.family == 128, m.family == 129, m.src, ntop6) && srcLen == m.srcLen
              && TellsTable(table, m)
            case MplsText(lbl) => m.family == 28 && m.dst.Some? && |m.dst.value| >= 4 && TopBits(lbl, m.dst.value)
            case Unreadable => false
  {
    hide Print, ReadTopic, GoodNtop6, WellFormed, HasTopic, RouteKey, PrintAddr, ValidKey, TellsAddr, TellsIndex, TopBits;
    KeysAreTheKeys(m, m);
    var k := RouteKey(m).value;
    PrintFits(k, ntop6);
    PrintReads(k, ntop6);
    KeyTellsFields(m, ntop6);
  }

  /** The family is one that inet_ntop knows, or has a label for a key. */
  predicate Printable(m: Message) {
    m.family == AF_MPLS || AfOf(m) != Unknown
  }

  /** Two messages are about the same route: the key, and the addresses also where they are not printed. */
  predicate SameRoute(m: Message, n: Message)
    requires WellFormed(m) && WellFormed(n) && HasTopic(m) && HasTopic(n)
  {
    && SameKey(m, n)
    && (!Printable(m) ==>
          && m.family == n.family && Payload(m.dst) == Payload(n.dst)
          && (m.rtype == RTN_MULTICAST ==> Payload(m.src) == Payload(n.src)))
  }

  /** No message about another route has the topic of `m`. */
  ghost predicate TopicIsUnique(m: Message, ntop6: Bytes -> string)
    requires WellFormed(m) && HasTopic(m)
  {
    forall n :: WellFormed(n) && HasTopic(n) && SameTopic(m, n, ntop6) ==> SameRoute(m, n)
  }

  /** A message of an unknown family with another destination than `m`. */
  function Twin(m: Message): Message {
    m.(dst := Some(if Payload(m.dst) == [1] then [2] else [1]))
  }

  /**
   Topics identify routes exactly where addresses are printed: routes of a family
   that inet_ntop does not know, such as AF_INET with type RTN_MULTICAST, share a
   topic whatever their addresses.
   */
  lemma TopicsIdentifyRoutes(m: Message, ntop6: Bytes -> string)
    requires WellFormed(m) && HasTopic(m) && GoodNtop6(ntop6)
    ensures TopicIsUnique(m, ntop6) <==> Printable(m)
  {
    hide RouteTopic, GoodNtop6, SameTopic;
    if Printable(m) {
      hide WellFormed, HasTopic, SameKey;
      forall n | WellFormed(n) && HasTopic(n) && SameTopic(m, n, ntop6) ensures SameRoute(m, n) {
        TopicsAreKeys(m, n, ntop6);
      }
    } else {
      var n := Twin(m);
      assert WellFormed(n) && HasTopic(n) && SameKey(m, n) && !SameRoute(m, n);
      TopicsAreKeys(m, n, ntop6);
    }
  }

  /** Only messages about routes get a topic. */
  lemma OthersAreIgnored(m: Message, ntop6: Bytes -> string)
    requires WellFormed(m)
    ensures RouteTopic(m, ntop6).Ignored? <==> !HasTopic(m)
  {
    hide Print, HasTopic, WellFormed, RouteKey, SameKey;
    KeysAreTheKeys(m, m);
  }

  // ----- the contract on inet_ntop can be met -----

  function Glyph(n: nat): char
    requires n < 256
  {
    (0x100 + n) as char
  }

  /** One character per byte, after a colon. */
  function SomeNtop6(a: Bytes): string {
    [':'] + seq(|a|, i requires 0 <= i < |a| => Glyph(a[i]))
  }

  lemma GlyphIsOdd(m: nat, n: nat)
    requires m < 256 && n < 256
    ensures Glyph(m) == Glyph(n) ==> m == n
    ensures Glyph(m) != '/' && Glyph(m) != ' '
  {
  }

  lemma SomeNtop6Injective(a: Bytes, b: Bytes)
    requires |a| == 16 && |b| == 16 && SomeNtop6(a) == SomeNtop6(b)
    ensures a == b
  {
    hide Glyph;
    forall i | 0 <= i < 16 ensures a[i] == b[i] {
      assert SomeNtop6(a)[i + 1] == Glyph(a[i]) && SomeNtop6(b)[i + 1] == Glyph(b[i]);
      GlyphIsOdd(a[i], b[i]);
    }
  }

  lemma SomeNtop6Plain(a: Bytes)
    requires |a| == 16
    ensures |SomeNtop6(a)| <= 45 && ':' in SomeNtop6(a) && '/' !in SomeNtop6(a) && ' ' !in SomeNtop6(a)
  {
    hide Glyph;
    assert SomeNtop6(a)[0] == ':';
    forall c | c in SomeNtop6(a) ensures c != '/' && c != ' ' {
      var i :| 0 <= i < 17 && SomeNtop6(a)[i] == c;
      if i > 0 { GlyphIsOdd(a[i - 1], a[i - 1]); }
    }
  }

  lemma ContractCanBeMet()
    ensures GoodNtop6(SomeNtop6)
  {
    hide SomeNtop6;
    forall a: Bytes, b: Bytes | |a| == 16 && |b| == 16 && SomeNtop6(a) == SomeNtop6(b) ensures a == b {
      SomeNtop6Injective(a, b);
    }
    forall a: Bytes | |a| == 16
      ensures |SomeNtop6(a)| <= 45 && ':' in SomeNtop6(a) && '/' !in SomeNtop6(a) && ' ' !in SomeNtop6(a)
    {
      SomeNtop6Plain(a);
    }
  }
}
