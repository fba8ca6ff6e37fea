/**
 The cursor broker on values (broker/broker.c).

 One list holds the data objects and the client cursors.  An object that is
 published, updated or marked for deletion goes to the tail with a fresh id; a
 client is a cursor that moves down the list at its own pace.
 */
module Broker {
  type Topic = string
  type ClientId = nat

  /** A message as a client sees it: its topic, whether it is a delete, and its body. */
  datatype Msg = Msg(topic: Topic, del: bool, body: string)

  /** One heap copy of a message; `copy` tells the copies apart. */
  datatype Data = Data(copy: nat, msg: Msg)

  /** struct rib_route; `handle` stands for its address. */
  datatype Route = Route(handle: nat, refcount: nat, pri: nat, topic: Topic, data: Data)

  /** struct broker_obj: embedded in a route, or in a client. */
  datatype Entry = Obj(r: Route, id: nat, del: bool) | Cursor(c: ClientId)

  /** The address of a broker_obj. */
  datatype Key = Handle(h: nat) | Client(c: ClientId)

  /** struct broker: the object list, the id counter, and the id of each client's cursor. */
  datatype Broker = Broker(list: seq<Entry>, id: nat, cur: map<ClientId, nat>)

  /** A broker after an operation, with the routes it unlocked, in order. */
  datatype Out = Out(b: Broker, gone: seq<Route>)

  const EMPTY := Broker([], 0, map[])

  function KeyOf(e: Entry): Key {
    match e
    case Obj(r, _, _) => Handle(r.handle)
    case Cursor(c) => Client(c)
  }

  // ----- list primitives -----

  /** The position of the entry with address `k`, or the length of the list. */
  function Find(list: seq<Entry>, k: Key): (i: nat)
    ensures i <= |list|
    ensures i < |list| ==> KeyOf(list[i]) == k
    ensures forall j :: 0 <= j < i ==> KeyOf(list[j]) != k
  {
    if list == [] then 0
    else if KeyOf(list[0]) == k then 0
    else 1 + Find(list[1..], k)
  }

  /** The position of the first data object at or after `i`, or the length of the list. */
  function NextObj(list: seq<Entry>, i: nat): (j: nat)
    requires i <= |list|
    ensures i <= j <= |list|
    ensures j < |list| ==> list[j].Obj?
    ensures forall k :: i <= k < j ==> list[k].Cursor?
    decreases |list| - i
  {
    if i == |list| || list[i].Obj? then i else NextObj(list, i + 1)
  }

  function RemoveAt(list: seq<Entry>, i: nat): seq<Entry>
    requires i < |list|
  {
    list[..i] + list[i + 1..]
  }

  function Remove(list: seq<Entry>, k: Key): seq<Entry> {
    var i := Find(list, k);
    if i < |list| then RemoveAt(list, i) else list
  }

  function InsertAt(list: seq<Entry>, i: nat, e: Entry): seq<Entry>
    requires i <= |list|
  {
    list[..i] + [e] + list[i..]
  }

  // ----- operations -----

  function AddObj(b: Broker, r: Route): Broker {
    b.(list := b.list + [Obj(r.(refcount := r.refcount + 1), b.id + 1, false)], id := b.id + 1)
  }

  function DelNow(b: Broker, h: nat): Out {
    var i := Find(b.list, Handle(h));
    if i < |b.list| then Out(b.(list := RemoveAt(b.list, i)), [b.list[i].r]) else Out(b, [])
  }

  /** Move an object to the tail with a fresh id and the given delete mark. */
  function MoveToTail(b: Broker, h: nat, del: bool): Broker {
    var i := Find(b.list, Handle(h));
    if i < |b.list|
    then b.(list := RemoveAt(b.list, i) + [Obj(b.list[i].r, b.id + 1, del)], id := b.id + 1)
    else b
  }

  function DelObj(b: Broker, h: nat): Out {
    if b.cur == map[] then DelNow(b, h) else Out(MoveToTail(b, h, true), [])
  }

  function UpdObj(b: Broker, h: nat): Broker {
    MoveToTail(b, h, false)
  }

  /** The route's payload is replaced where the route stands. */
  function SetData(b: Broker, h: nat, d: Data): Broker {
    var i := Find(b.list, Handle(h));
    if i < |b.list|
    then b.(list := b.list[i := b.list[i].(r := b.list[i].r.(data := d))])
    else b
  }

  predicate HasObj(list: seq<Entry>) {
    exists e :: e in list && e.Obj?
  }

  function ClientCreate(b: Broker, c: ClientId): Broker {
    Broker([Cursor(c)] + b.list, b.id, b.cur[c := if HasObj(b.list) then 0 else b.id])
  }

  /** Some client has an id below `id`. */
  predicate Needed(cur: map<ClientId, nat>, id: nat) {
    exists c :: c in cur && cur[c] < id
  }

  predicate Keep(cur: map<ClientId, nat>, e: Entry) {
    e.Obj? && e.del ==> Needed(cur, e.id)
  }

  /** The entries that outlive the deletion of a client ... */
  function Kept(list: seq<Entry>, cur: map<ClientId, nat>): seq<Entry> {
    if list == [] then []
    else if Keep(cur, list[0]) then [list[0]] + Kept(list[1..], cur)
    else Kept(list[1..], cur)
  }

  /** ... and the routes of those that do not. */
  function Reaped(list: seq<Entry>, cur: map<ClientId, nat>): seq<Route> {
    if list == [] then []
    else if Keep(cur, list[0]) then Reaped(list[1..], cur)
    else [list[0].r] + Reaped(list[1..], cur)
  }

  function RemoveCursor(b: Broker, c: ClientId): Broker {
    Broker(Remove(b.list, Client(c)), b.id, b.cur - {c})
  }

  function ClientDelete(b: Broker, c: ClientId): Out {
    var b1 := RemoveCursor(b, c);
    Out(b1.(list := Kept(b1.list, b1.cur)), Reaped(b1.list, b1.cur))
  }

  /** The position of the object that client `c` would read next, or the length of the list. */
  function NextFor(b: Broker, c: ClientId): (j: nat)
    ensures j <= |b.list|
    ensures j < |b.list| ==> b.list[j].Obj?
  {
    var k := Find(b.list, Client(c));
    if k < |b.list| then NextObj(b.list, k + 1) else |b.list|
  }

  /** The cursor of `c` goes in just after the object `o` and takes its id. */
  function InsertCursorAfter(b: Broker, c: ClientId, o: Entry): Broker
    requires o.Obj?
  {
    var i := Find(b.list, KeyOf(o));
    Broker(if i < |b.list| then InsertAt(b.list, i + 1, Cursor(c)) else b.list, b.id, b.cur[c := o.id])
  }

  function Advance(b: Broker, c: ClientId, o: Entry): Broker
    requires o.Obj?
  {
    InsertCursorAfter(RemoveCursor(b, c), c, o)
  }

  function GetData(b: Broker, c: ClientId): Out {
    var j := NextFor(b, c);
    if j == |b.list| then Out(b.(cur := b.cur[c := b.id]), [])
    else
      var b1 := Advance(b, c, b.list[j]);
      if Keep(b1.cur, b.list[j]) then Out(b1, []) else DelNow(b1, b.list[j].r.handle)
  }

  // ----- the invariant that ties ids to positions -----

  function IdOf(cur: map<ClientId, nat>, e: Entry): nat {
    match e
    case Obj(_, id, _) => id
    case Cursor(c) => if c in cur then cur[c] else 0
  }

  /**
   What must hold of an entry `x` and a later entry `y`.  Two cursors are free:
   a client that reads passes over the cursors in its way.
   */
  predicate Before(cur: map<ClientId, nat>, x: Entry, y: Entry) {
    && KeyOf(x) != KeyOf(y)
    && (y.Obj? ==> IdOf(cur, x) < y.id)
    && (x.Obj? && y.Cursor? ==> x.id <= IdOf(cur, y))
  }

  predicate Cut(list: seq<Entry>, cur: map<ClientId, nat>) {
    forall i, j :: 0 <= i < j < |list| ==> Before(cur, list[i], list[j])
  }

  predicate InRange(b: Broker, e: Entry) {
    match e
    case Obj(_, id, _) => 1 <= id <= b.id
    case Cursor(c) => c in b.cur
  }

  /** Holds of every broker that the operations can reach. */
  ghost predicate Inv(b: Broker) {
    && Cut(b.list, b.cur)
    && (forall e :: e in b.list ==> InRange(b, e))
    && (forall c :: c in b.cur ==> Cursor(c) in b.list && b.cur[c] <= b.id)
  }

  ghost function Objs(b: Broker): set<Entry> {
    set e | e in b.list && e.Obj?
  }

  /** The objects that lie after the cursor of `c`, told by their ids. */
  ghost function Pending(b: Broker, c: ClientId): set<Entry>
    requires c in b.cur
  {
    set e | e in b.list && e.Obj? && b.cur[c] < e.id
  }

  // ----- the operations keep the invariant, and what they do to the objects -----

  lemma CutPair(list: seq<Entry>, cur: map<ClientId, nat>, i: nat, j: nat)
    requires Cut(list, cur) && i < |list| && j < |list|
    ensures i < j ==> Before(cur, list[i], list[j])
    ensures j < i ==> Before(cur, list[j], list[i])
  {
  }

  lemma RemoveAtElements(list: seq<Entry>, i: nat, cur: map<ClientId, nat>)
    requires i < |list| && Cut(list, cur)
    ensures Cut(RemoveAt(list, i), cur)
    ensures forall e :: e in RemoveAt(list, i) <==> e in list && e != list[i]
    ensures forall e :: e in list && KeyOf(e) == KeyOf(list[i]) ==> e == list[i]
  {
  }

  lemma InsertAtCut(list: seq<Entry>, i: nat, e: Entry, cur: map<ClientId, nat>)
    requires i <= |list| && Cut(list, cur)
    requires forall j :: 0 <= j < i ==> Before(cur, list[j], e)
    requires forall j :: i <= j < |list| ==> Before(cur, e, list[j])
    ensures Cut(InsertAt(list, i, e), cur)
    ensures forall x :: x in InsertAt(list, i, e) <==> x in list || x == e
  {
  }

  lemma FindListed(list: seq<Entry>, e: Entry, cur: map<ClientId, nat>)
    requires e in list && Cut(list, cur)
    ensures Find(list, KeyOf(e)) < |list| && list[Find(list, KeyOf(e))] == e
  {
  }

  /** A new object at the tail, with the next id. */
  lemma AppendFacts(b: Broker, x: Entry)
    requires Inv(b) && x.Obj? && x.id == b.id + 1
    requires forall e :: e in Objs(b) ==> e.r.handle != x.r.handle
    ensures var b' := b.(list := b.list + [x], id := b.id + 1); Inv(b') && Objs(b') == Objs(b) + {x}
  {
    forall j | 0 <= j < |b.list| ensures Before(b.cur, b.list[j], x) {
      assert InRange(b, b.list[j]);
      assert b.list[j].Obj? ==> b.list[j] in Objs(b);
    }
    InsertAtCut(b.list, |b.list|, x, b.cur);
    assert InsertAt(b.list, |b.list|, x) == b.list + [x];
  }

  /** A cursor put between the objects up to `id` and those above it. */
  lemma InsertCursorFacts(b: Broker, c: ClientId, i: nat, id: nat)
    requires Inv(b) && c !in b.cur && i <= |b.list| && id <= b.id
    requires forall j :: 0 <= j < i && b.list[j].Obj? ==> b.list[j].id <= id
    requires forall j :: i <= j < |b.list| && b.list[j].Obj? ==> id < b.list[j].id
    ensures var b' := Broker(InsertAt(b.list, i, Cursor(c)), b.id, b.cur[c := id]); Inv(b') && Objs(b') == Objs(b)
  {
    var b' := Broker(InsertAt(b.list, i, Cursor(c)), b.id, b.cur[c := id]);
    forall j | 0 <= j < |b.list| ensures InRange(b, b.list[j]) {}
    assert Cut(b.list, b'.cur) by {
      forall j, k | 0 <= j < k < |b.list| ensures Before(b'.cur, b.list[j], b.list[k]) {
        CutPair(b.list, b.cur, j, k);
      }
    }
    InsertAtCut(b.list, i, Cursor(c), b'.cur);
  }

  lemma CutWithout(list: seq<Entry>, cur: map<ClientId, nat>, c: ClientId)
    requires Cut(list, cur) && Cursor(c) !in list
    ensures Cut(list, cur - {c})
  {
  }

  lemma RemoveCursorFacts(b: Broker, c: ClientId)
    requires Inv(b) && c in b.cur
    ensures var k := Find(b.list, Client(c)); k < |b.list| && b.list[k] == Cursor(c)
    ensures var b' := RemoveCursor(b, c); Inv(b') && Objs(b') == Objs(b)
  {
    hide Cut, Find, RemoveAt;
    FindListed(b.list, Cursor(c), b.cur);
    RemoveAtElements(b.list, Find(b.list, Client(c)), b.cur);
    CutWithout(RemoveCursor(b, c).list, b.cur, c);
  }

  lemma CutOf(b: Broker)
    requires Inv(b)
    ensures Cut(b.list, b.cur)
  {
  }

  lemma AddObjFacts(b: Broker, r: Route)
    requires Inv(b)
    requires forall e :: e in Objs(b) ==> e.r.handle != r.handle
    ensures Inv(AddObj(b, r))
    ensures Objs(AddObj(b, r)) == Objs(b) + {Obj(r.(refcount := r.refcount + 1), b.id + 1, false)}
  {
    AppendFacts(b, Obj(r.(refcount := r.refcount + 1), b.id + 1, false));
  }

  lemma DelNowFacts(b: Broker, e: Entry)
    requires Inv(b) && e in Objs(b)
    ensures var o := DelNow(b, e.r.handle);
            && Inv(o.b) && Objs(o.b) == Objs(b) - {e} && o.gone == [e.r]
            && o.b.id == b.id && o.b.cur == b.cur
    ensures forall x :: x in Objs(b) && x.r.handle == e.r.handle ==> x == e
  {
    FindListed(b.list, e, b.cur);
    RemoveAtElements(b.list, Find(b.list, Handle(e.r.handle)), b.cur);
  }

  lemma MoveToTailFacts(b: Broker, e: Entry, del: bool)
    requires Inv(b) && e in Objs(b)
    ensures var b' := MoveToTail(b, e.r.handle, del);
            && Inv(b') && Objs(b') == Objs(b) - {e} + {Obj(e.r, b.id + 1, del)}
            && b'.id == b.id + 1 && b'.cur == b.cur
  {
    hide Inv;
    DelNowFacts(b, e);
    assert Cut(b.list, b.cur) by { CutOf(b); }
    FindListed(b.list, e, b.cur);
    AppendFacts(DelNow(b, e.r.handle).b, Obj(e.r, b.id + 1, del));
  }

  lemma SetDataFacts(b: Broker, e: Entry, d: Data)
    requires Inv(b) && e in Objs(b)
    ensures var b' := SetData(b, e.r.handle, d);
            && Inv(b') && Objs(b') == Objs(b) - {e} + {e.(r := e.r.(data := d))}
            && b'.id == b.id && b'.cur == b.cur
  {
    var i := Find(b.list, Handle(e.r.handle));
    FindListed(b.list, e, b.cur);
    var x := e.(r := e.r.(data := d));
    var list := b.list[i := x];
    forall j, k | 0 <= j < k < |list| ensures Before(b.cur, list[j], list[k]) {
      CutPair(b.list, b.cur, j, k);
    }
    forall j | 0 <= j < |list| ensures j != i ==> list[j] in b.list && list[j] != e {
      CutPair(b.list, b.cur, i, j);
    }
    forall y | y in b.list && y != e ensures y in list {
      var j :| 0 <= j < |b.list| && b.list[j] == y;
      assert list[j] == y;
    }
    assert list[i] == x;
  }

  lemma ClientCreateFacts(b: Broker, c: ClientId)
    requires Inv(b) && c !in b.cur
    ensures var b' := ClientCreate(b, c);
            Inv(b') && Objs(b') == Objs(b) && (b'.cur[c] == b'.id <==> Objs(b) == {})
    ensures Pending(ClientCreate(b, c), c) == Objs(b)
  {
    var b' := ClientCreate(b, c);
    forall j | 0 <= j < |b.list| && b.list[j].Obj? ensures b'.cur[c] == 0 < b.list[j].id {
      assert InRange(b, b.list[j]) && HasObj(b.list);
    }
    InsertCursorFacts(b, c, 0, b'.cur[c]);
    assert InsertAt(b.list, 0, Cursor(c)) == b'.list;
    forall e | e in Objs(b) ensures b'.cur[c] < e.id <= b.id { assert InRange(b, e) && HasObj(b.list); }
    assert Objs(b) == {} <==> !HasObj(b.list) by {
      if e :| e in b.list && e.Obj? { assert e in Objs(b); }
    }
  }

  lemma {:induction false} KeptElements(list: seq<Entry>, cur: map<ClientId, nat>)
    requires Cut(list, cur)
    ensures Cut(Kept(list, cur), cur)
    ensures forall e :: e in Kept(list, cur) <==> e in list && Keep(cur, e)
    ensures forall r :: r in Reaped(list, cur) <==> exists e :: e in list && !Keep(cur, e) && e.r == r
    ensures forall i, j :: 0 <= i < j < |Reaped(list, cur)| ==> Reaped(list, cur)[i].handle != Reaped(list, cur)[j].handle
  {
    if list != [] {
      var rest := list[1..];
      forall i, j | 0 <= i < j < |rest| ensures Before(cur, rest[i], rest[j]) {
        CutPair(list, cur, i + 1, j + 1);
      }
      KeptElements(rest, cur);
      forall e | e in rest ensures Before(cur, list[0], e) {
        var j :| 0 <= j < |rest| && rest[j] == e;
        CutPair(list, cur, 0, j + 1);
      }
      assert list == [list[0]] + rest;
      if Keep(cur, list[0]) {
        var k := Kept(rest, cur);
        forall j | 0 <= j < |k| ensures Before(cur, list[0], k[j]) { assert k[j] in k; }
        InsertAtCut(k, 0, list[0], cur);
        assert InsertAt(k, 0, list[0]) == [list[0]] + k;
      } else {
        var g := Reaped(rest, cur);
        forall j | 0 <= j < |g| ensures list[0].r.handle != g[j].handle { assert g[j] in g; }
      }
    }
  }

  lemma ClientDeleteFacts(b: Broker, c: ClientId)
    requires Inv(b) && c in b.cur
    ensures var o := ClientDelete(b, c);
            && Inv(o.b) && o.b.id == b.id && o.b.cur == b.cur - {c}
            && Objs(o.b) == (set e | e in Objs(b) && Keep(b.cur - {c}, e))
            && (forall r :: r in o.gone <==> exists e :: e in Objs(b) && !Keep(b.cur - {c}, e) && e.r == r)
            && (forall i, j :: 0 <= i < j < |o.gone| ==> o.gone[i].handle != o.gone[j].handle)
  {
    RemoveCursorFacts(b, c);
    var b1 := RemoveCursor(b, c);
    var list, cur := b1.list, b1.cur;
    KeptElements(list, cur);
    forall d | d in cur ensures Cursor(d) in Kept(list, cur) { assert Keep(cur, Cursor(d)); }
    forall e ensures e in list && !Keep(cur, e) <==> e in Objs(b) && !Keep(cur, e) {
      assert e in Objs(b1) <==> e in Objs(b);
    }
  }

  lemma IdsDistinct(b: Broker, e: Entry, f: Entry)
    requires Inv(b) && e in Objs(b) && f in Objs(b) && e.id == f.id
    ensures e == f
  {
  }

  lemma NextForIsLeastPending(b: Broker, c: ClientId)
    requires Inv(b) && c in b.cur
    ensures NextFor(b, c) == |b.list| <==> Pending(b, c) == {}
    ensures NextFor(b, c) < |b.list| ==>
              && b.list[NextFor(b, c)] in Pending(b, c)
              && forall e :: e in Pending(b, c) ==> b.list[NextFor(b, c)].id <= e.id
  {
    hide Cut, InRange;
    var k, j := Find(b.list, Client(c)), NextFor(b, c);
    FindListed(b.list, Cursor(c), b.cur);
    forall e | e in Pending(b, c) ensures j < |b.list| && b.list[j].id <= e.id {
      var i :| 0 <= i < |b.list| && b.list[i] == e;
      CutPair(b.list, b.cur, i, k);
      if j < |b.list| { CutPair(b.list, b.cur, i, j); }
    }
    if j < |b.list| {
      CutPair(b.list, b.cur, k, j);
      assert b.list[j] in Pending(b, c);
    }
  }

  lemma InsertCursorAfterFacts(b: Broker, c: ClientId, o: Entry)
    requires Inv(b) && o in Objs(b) && c !in b.cur
    ensures var b' := InsertCursorAfter(b, c, o); Inv(b') && Objs(b') == Objs(b)
  {
    FindListed(b.list, o, b.cur);
    var i := Find(b.list, KeyOf(o));
    forall x | 0 <= x < |b.list| && b.list[x].Obj?
      ensures if x < i + 1 then b.list[x].id <= o.id else o.id < b.list[x].id
    {
      CutPair(b.list, b.cur, x, i);
    }
    assert InRange(b, o);
    InsertCursorFacts(b, c, i + 1, o.id);
  }

  lemma AdvanceFacts(b: Broker, c: ClientId, o: Entry)
    requires Inv(b) && c in b.cur && o in Objs(b)
    ensures var b1 := Advance(b, c, o); Inv(b1) && Objs(b1) == Objs(b) && b1.id == b.id && b1.cur == b.cur[c := o.id]
  {
    assert (b.cur - {c})[c := o.id] == b.cur[c := o.id];
    RemoveCursorFacts(b, c);
    InsertCursorAfterFacts(RemoveCursor(b, c), c, o);
  }

  /** The id that the cursor of `c` has after a read. */
  function ReadId(b: Broker, c: ClientId): nat {
    var j := NextFor(b, c);
    if j < |b.list| then b.list[j].id else b.id
  }

  /** The object that a read by `c` releases: a tombstone that nobody else waits for. */
  function ReadGone(b: Broker, c: ClientId): set<Entry> {
    var j := NextFor(b, c);
    if j < |b.list| && !Keep(b.cur[c := ReadId(b, c)], b.list[j]) then {b.list[j]} else {}
  }

  /** A cursor with nothing after it may take the broker's id. */
  lemma CaughtUpFacts(b: Broker, c: ClientId)
    requires Inv(b) && c in b.cur && Pending(b, c) == {}
    ensures Inv(b.(cur := b.cur[c := b.id]))
  {
    var cur := b.cur[c := b.id];
    forall i, j | 0 <= i < j < |b.list| ensures Before(cur, b.list[i], b.list[j]) {
      CutPair(b.list, b.cur, i, j);
      assert InRange(b, b.list[i]);
      assert b.list[j].Obj? ==> b.list[j] !in Pending(b, c);
    }
  }

  /** What a read does, told by ids alone. */
  lemma GetDataFacts(b: Broker, c: ClientId)
    requires Inv(b) && c in b.cur
    ensures var out := GetData(b, c);
            && Inv(out.b) && out.b.id == b.id && out.b.cur == b.cur[c := ReadId(b, c)]
            && Objs(out.b) == Objs(b) - ReadGone(b, c) && ReadGone(b, c) <= Objs(b)
            && |out.gone| <= 1 && (forall r :: r in out.gone <==> exists e :: e in ReadGone(b, c) && e.r == r)
  {
    hide Inv, Advance, DelNow, NextFor, Pending;
    NextForIsLeastPending(b, c);
    var j := NextFor(b, c);
    if j < |b.list| {
      AdvanceFacts(b, c, b.list[j]);
      DelNowFacts(Advance(b, c, b.list[j]), b.list[j]);
    } else {
      CaughtUpFacts(b, c);
    }
  }

  /** A tombstone that a reader leaves in the list is still ahead of some client. */
  lemma GetDataKeepsNeeded(b: Broker, c: ClientId, e: Entry)
    requires Inv(b) && c in b.cur && e in Objs(b) && e.del && e !in ReadGone(b, c) && Needed(b.cur, e.id)
    ensures Needed(b.cur[c := ReadId(b, c)], e.id)
  {
    hide Inv, NextFor;
    NextForIsLeastPending(b, c);
    var cur, d :| cur == b.cur[c := ReadId(b, c)] && d in b.cur && b.cur[d] < e.id;
    if d == c {
      assert e in Pending(b, c);
      var o := b.list[NextFor(b, c)];
      assert o in Objs(b);
      if e.id == o.id { IdsDistinct(b, e, o); } else { assert cur[d] < e.id; }
    } else {
      assert cur[d] < e.id;
    }
  }

  // ----- main results about one broker -----

  /**
   The cheap test of no_clients_need_this compares ids; it answers the question
   about positions exactly: does some cursor stand before this entry?
   */
  lemma NeededIsPositional(b: Broker, i: nat)
    requires Inv(b) && i < |b.list| && b.list[i].Obj?
    ensures Needed(b.cur, b.list[i].id) <==> exists j :: 0 <= j < i && b.list[j].Cursor?
  {
    if Needed(b.cur, b.list[i].id) {
      var c :| c in b.cur && b.cur[c] < b.list[i].id;
      var j :| 0 <= j < |b.list| && b.list[j] == Cursor(c);
      CutPair(b.list, b.cur, i, j);
      assert 0 <= j < i && b.list[j].Cursor?;
    }
    if j :| 0 <= j < i && b.list[j].Cursor? {
      CutPair(b.list, b.cur, j, i);
      assert InRange(b, b.list[j]);
      assert b.list[j].c in b.cur;
    }
  }

  /** What is pending by id is what stands after the cursor. */
  lemma PendingIsPositional(b: Broker, c: ClientId, i: nat)
    requires Inv(b) && c in b.cur && i < |b.list| && b.list[i].Obj?
    ensures b.list[i] in Pending(b, c) <==> Find(b.list, Client(c)) < i
  {
  }

  /** Counting: distinct ids between `lo` and `hi` are at most hi - lo. */
  lemma {:induction false} DistinctIdsFit(s: set<Entry>, lo: nat, hi: nat)
    requires lo <= hi
    requires forall e :: e in s ==> e.Obj? && lo < e.id <= hi
    requires forall e, f :: e in s && f in s && e.id == f.id ==> e == f
    ensures |s| <= hi - lo
    decreases hi
  {
    if e :| e in s && e.id == hi {
      DistinctIdsFit(s - {e}, lo, hi - 1);
    } else if lo < hi {
      DistinctIdsFit(s, lo, hi - 1);
    } else {
      assert forall e :: e !in s;
      assert s == {};
    }
  }

  /** The "behind" figure never underflows and bounds the number of pending objects. */
  lemma BehindIsABound(b: Broker, c: ClientId)
    requires Inv(b) && c in b.cur
    ensures b.cur[c] <= b.id
    ensures |Pending(b, c)| <= b.id - b.cur[c]
  {
    forall e, f | e in Pending(b, c) && f in Pending(b, c) && e.id == f.id ensures e == f {
      IdsDistinct(b, e, f);
    }
    forall e | e in Pending(b, c) ensures e.id <= b.id { assert InRange(b, e); }
    DistinctIdsFit(Pending(b, c), b.cur[c], b.id);
  }
}
