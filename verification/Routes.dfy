/**
 The prioritised route broker on values (broker/route_broker.c).

 Three brokers, one per priority, stand beside a hash table from topics to
 routes.  `Publish` follows object_broker_publish branch by branch; `Published`
 says, without reference to lists, what each of its outcomes amounts to.
 */
module Routes {
  import opened Options
  import opened Broker

  const LEVELS: nat := 3 // ROUTE_PRIORITY_MAX

  type Pri = p: nat | p < LEVELS

  /** What a hash entry gives: the address of a route and its (fixed) priority. */
  datatype Ref = Ref(handle: nat, pri: Pri)

  /** The hash table, and which routes and payload copies have been freed, how often. */
  datatype Table = Table(hash: map<Topic, Ref>, freedRoutes: multiset<nat>, freedData: multiset<nat>)

  /** `routes` and `copies` count the allocations made so far; they name the next ones. */
  datatype AnyState = State(levels: seq<Broker>, table: Table, routes: nat, copies: nat)

  const INITIAL := State([EMPTY, EMPTY, EMPTY], Table(map[], multiset{}, multiset{}), 0, 0)

  type State = s: AnyState | |s.levels| == LEVELS witness INITIAL

  // ----- rib_route_unlock -----

  /** Dropping the last reference erases the topic from the hash table, whatever it maps to. */
  function Unlock(t: Table, r: Route): Table {
    if r.refcount == 1
    then Table(t.hash - {r.topic}, t.freedRoutes + multiset{r.handle}, t.freedData + multiset{r.data.copy})
    else t
  }

  function UnlockAll(t: Table, rs: seq<Route>): Table
    decreases |rs|
  {
    if rs == [] then t else UnlockAll(Unlock(t, rs[0]), rs[1..])
  }

  function FreeRoute(t: Table, h: nat): Table {
    t.(freedRoutes := t.freedRoutes + multiset{h})
  }

  function FreeData(t: Table, copy: nat): Table {
    t.(freedData := t.freedData + multiset{copy})
  }

  /** zhash_insert leaves a key that is present alone. */
  function Insert(t: Table, topic: Topic, x: Ref): Table {
    if topic in t.hash then t else t.(hash := t.hash[topic := x])
  }

  // ----- operations -----

  function Apply(s: State, l: Pri, o: Out): State {
    s.(levels := s.levels[l := o.b], table := UnlockAll(s.table, o.gone))
  }

  /** Free the payload of a listed route and give it another. */
  function SwapData(s: State, x: Ref, d: Data): State {
    var b := s.levels[x.pri];
    var i := Find(b.list, Handle(x.handle));
    if i < |b.list|
    then s.(levels := s.levels[x.pri := SetData(b, x.handle, d)], table := FreeData(s.table, b.list[i].r.data.copy))
    else s
  }

  /** The published priority is higher: force the route out of its level, add it to the new one. */
  function Promote(s: State, x: Ref, r: Route, pri: Pri): State {
    var s2 := Apply(s, x.pri, DelNow(s.levels[x.pri], x.handle));
    var s3 := s2.(levels := s2.levels[pri := AddObj(s2.levels[pri], r)]);
    if r.data.msg.del
    then Apply(s3, pri, DelObj(s3.levels[pri], r.handle))
    else s3.(table := Insert(s3.table, r.topic, Ref(r.handle, pri)))
  }

  /** The priority stays or would drop: the route stays where it is with the new payload. */
  function UpdateInPlace(s: State, x: Ref, r: Route): State {
    var s2 := SwapData(s, x, r.data);
    var s3 := s2.(table := FreeRoute(s2.table, r.handle));
    if r.data.msg.del
    then Apply(s3, x.pri, DelObj(s3.levels[x.pri], x.handle))
    else s3.(levels := s3.levels[x.pri := UpdObj(s3.levels[x.pri], x.handle)])
  }

  function AddNew(s: State, r: Route, pri: Pri): State {
    s.(levels := s.levels[pri := AddObj(s.levels[pri], r)],
       table := Insert(s.table, r.topic, Ref(r.handle, pri)))
  }

  /** The branches of object_broker_publish after the copy was made and a topic was found. */
  function Publish(s: State, m: Msg, pri: Pri): State {
    var r := Route(s.routes, 0, pri, m.topic, Data(s.copies, m));
    var s1 := s.(routes := s.routes + 1, copies := s.copies + 1);
    if m.topic in s.table.hash then
      var x := s.table.hash[m.topic];
      if x.pri > pri then Promote(s1, x, r, pri) else UpdateInPlace(s1, x, r)
    else if m.del then
      s1.(table := FreeRoute(FreeData(s1.table, s.copies), s.routes))
    else AddNew(s1, r, pri)
  }

  function ClientCreateAll(s: State, c: ClientId): State {
    s.(levels := [ClientCreate(s.levels[0], c), ClientCreate(s.levels[1], c), ClientCreate(s.levels[2], c)])
  }

  function ClientDeleteAll(s: State, c: ClientId): State {
    Apply(Apply(Apply(s,
      0, ClientDelete(s.levels[0], c)),
      1, ClientDelete(s.levels[1], c)),
      2, ClientDelete(s.levels[2], c))
  }

  /** Does level `l` look as if it had data for `c`?  data_available_for_client compares ids. */
  predicate Behind(s: State, l: Pri, c: ClientId) {
    c in s.levels[l].cur && s.levels[l].cur[c] != s.levels[l].id
  }

  /** The first level that looks as if it had data for `c`, or LEVELS. */
  function Available(s: State, c: ClientId): (l: nat)
    ensures l <= LEVELS
    ensures l < LEVELS ==> Behind(s, l, c)
    ensures forall i: Pri :: i < l ==> !Behind(s, i, c)
  {
    if Behind(s, 0, c) then 0 else if Behind(s, 1, c) then 1 else if Behind(s, 2, c) then 2 else LEVELS
  }

  /** A message as delivered: from which level, under which id. */
  datatype Got = Got(level: Pri, id: nat, msg: Msg)

  /** What client `c` gets from level `l`: an object, unless the level only looked as if it had one. */
  function Next(s: State, l: Pri, c: ClientId): Option<Got> {
    var b := s.levels[l];
    var j := NextFor(b, c);
    if j < |b.list| then Some(Got(l, b.list[j].id, b.list[j].r.data.msg)) else None
  }

  function Read(s: State, l: Pri, c: ClientId): State {
    Apply(s, l, GetData(s.levels[l], c))
  }

  // ----- what is listed -----

  /** An object and the level it is listed at. */
  datatype Item = At(l: nat, e: Entry)

  /** The objects of all three lists. */
  ghost function All(s: State): (a: iset<Item>)
    ensures forall x :: x in a ==> x.l < LEVELS && x.e.Obj?
  {
    iset x: Item | x.l < LEVELS && x.e in Objs(s.levels[x.l])
  }

  /** The clients that are registered; the invariant makes it the same at each level. */
  function Clients(s: State): set<ClientId> {
    s.levels[0].cur.Keys
  }

  ghost predicate Shape(s: State) {
    forall l: Pri :: Inv(s.levels[l]) && s.levels[l].cur.Keys == Clients(s)
  }

  /** No cursor moves; the objects of `rem` leave the lists and those of `ins` join. */
  ghost predicate Moved(s: State, t: State, rem: iset<Item>, ins: iset<Item>) {
    && Shape(t)
    && All(t) == All(s) - rem + ins
    && (forall l: Pri :: t.levels[l].cur == s.levels[l].cur)
  }

  ghost function Items(l: nat, es: set<Entry>): iset<Item> {
    iset x: Item | x.l == l && x.e in es
  }

  lemma ItemsOne(x: Item)
    ensures Items(x.l, {x.e}) == iset{x}
  {
  }

  lemma LevelMoved(s: State, t: State, l: Pri, rem: set<Entry>, ins: set<Entry>)
    requires Shape(s) && t.levels == s.levels[l := t.levels[l]]
    requires Inv(t.levels[l]) && t.levels[l].cur == s.levels[l].cur
    requires Objs(t.levels[l]) == Objs(s.levels[l]) - rem + ins
    ensures Moved(s, t, Items(l, rem), Items(l, ins))
  {
    forall i: Pri ensures Inv(t.levels[i]) && t.levels[i].cur == s.levels[i].cur {
      assert i != l ==> t.levels[i] == s.levels[i];
    }
    forall x: Item ensures x in All(t) <==> x in All(s) - Items(l, rem) + Items(l, ins) {
      assert x.l < LEVELS && x.l != l ==> t.levels[x.l] == s.levels[x.l];
    }
  }

  lemma AllSame(s: State, t: State)
    requires t.levels == s.levels
    ensures All(t) == All(s) && (Shape(t) <==> Shape(s))
  {
  }

  // ----- the steps of Publish -----

  lemma UnlockNone(t: Table)
    ensures UnlockAll(t, []) == t
  {
  }

  lemma UnlockOne(t: Table, r: Route)
    ensures UnlockAll(t, [r]) == Unlock(t, r)
  {
    assert [r][1..] == [];
  }

  lemma DelNowMoved(s: State, l: Pri, e: Entry)
    requires Shape(s) && At(l, e) in All(s) && e.r.refcount == 1
    ensures var t := Apply(s, l, DelNow(s.levels[l], e.r.handle));
            && Moved(s, t, Items(l, {e}), iset{}) && t == s.(levels := t.levels, table := Unlock(s.table, e.r))
            && (forall i: Pri :: t.levels[i].id == s.levels[i].id)
  {
    DelNowFacts(s.levels[l], e);
    var o := DelNow(s.levels[l], e.r.handle);
    UnlockOne(s.table, e.r);
    LevelMoved(s, Apply(s, l, o), l, {e}, {});
    assert Items(l, {}) == iset{};
  }

  lemma AddMoved(s: State, l: Pri, r: Route)
    requires Shape(s) && r.refcount == 0
    requires forall x :: x in All(s) ==> x.e.r.handle != r.handle
    ensures var t := s.(levels := s.levels[l := AddObj(s.levels[l], r)]);
            && Moved(s, t, iset{}, Items(l, {Obj(r.(refcount := 1), s.levels[l].id + 1, false)}))
            && t.levels[l].id == s.levels[l].id + 1
  {
    forall e | e in Objs(s.levels[l]) ensures e.r.handle != r.handle { assert At(l, e) in All(s); }
    AddObjFacts(s.levels[l], r);
    LevelMoved(s, s.(levels := s.levels[l := AddObj(s.levels[l], r)]), l, {},
               {Obj(r.(refcount := 1), s.levels[l].id + 1, false)});
    assert Items(l, {}) == iset{};
  }

  lemma TailMoved(s: State, l: Pri, e: Entry, del: bool)
    requires Shape(s) && At(l, e) in All(s)
    ensures var t := s.(levels := s.levels[l := MoveToTail(s.levels[l], e.r.handle, del)]);
            && Moved(s, t, Items(l, {e}), Items(l, {Obj(e.r, s.levels[l].id + 1, del)}))
  {
    MoveToTailFacts(s.levels[l], e, del);
    LevelMoved(s, s.(levels := s.levels[l := MoveToTail(s.levels[l], e.r.handle, del)]), l, {e},
               {Obj(e.r, s.levels[l].id + 1, del)});
  }

  lemma SwapMoved(s: State, x: Ref, e: Entry, d: Data)
    requires Shape(s) && At(x.pri, e) in All(s) && e.r.handle == x.handle
    ensures var t := SwapData(s, x, d);
            && Moved(s, t, Items(x.pri, {e}), Items(x.pri, {e.(r := e.r.(data := d))}))
            && t == s.(levels := t.levels, table := FreeData(s.table, e.r.data.copy))
            && t.levels[x.pri].id == s.levels[x.pri].id
  {
    FindListed(s.levels[x.pri].list, e, s.levels[x.pri].cur);
    SetDataFacts(s.levels[x.pri], e, d);
    LevelMoved(s, SwapData(s, x, d), x.pri, {e}, {e.(r := e.r.(data := d))});
  }

  // ----- the invariant that needs no hypothesis -----

  ghost predicate Good(s: State, x: Item)
    requires x in All(s)
  {
    var r := x.e.r;
    && r.refcount == 1 && r.pri == x.l && r.handle < s.routes && r.data.copy < s.copies
    // the payload says what the object is, and so does the delete mark
    && r.data.msg.topic == r.topic && r.data.msg.del == x.e.del
    // some client has yet to read a tombstone
    && (x.e.del ==> Needed(s.levels[x.l].cur, x.e.id))
  }

  ghost predicate Unique(s: State) {
    forall x, y :: x in All(s) && y in All(s) ==>
      (x.e.r.handle == y.e.r.handle || x.e.r.data.copy == y.e.r.data.copy) ==> x == y
  }

  ghost predicate Points(a: Ref, t: Topic, x: Item) {
    x.e.Obj? && x.l == a.pri && x.e.r.handle == a.handle && x.e.r.topic == t
  }

  /** Every hash entry leads to a listed route of that topic. */
  ghost predicate Indexed(s: State) {
    forall t :: t in s.table.hash ==> exists x :: x in All(s) && Points(s.table.hash[t], t, x)
  }

  ghost predicate HandleListed(s: State, k: nat) {
    exists x :: x in All(s) && x.e.r.handle == k
  }

  ghost predicate CopyListed(s: State, k: nat) {
    exists x :: x in All(s) && x.e.r.data.copy == k
  }

  /** Each route ever made is in a list or was freed, once. */
  ghost predicate RoutesConserved(s: State) {
    forall k: nat :: s.table.freedRoutes[k] == if k < s.routes && !HandleListed(s, k) then 1 else 0
  }

  /** Each payload copy ever made is in a list or was freed, once. */
  ghost predicate DataConserved(s: State) {
    forall k: nat :: s.table.freedData[k] == if k < s.copies && !CopyListed(s, k) then 1 else 0
  }

  ghost predicate Conserved(s: State) {
    RoutesConserved(s) && DataConserved(s)
  }

  ghost predicate Base(s: State) {
    && Shape(s)
    && (forall x :: x in All(s) ==> Good(s, x))
    && Unique(s) && Indexed(s) && Conserved(s)
  }

  // ----- what publishing amounts to -----

  ghost function HashedItem(s: State, t: Topic): (x: Item)
    requires Indexed(s) && t in s.table.hash
    ensures x in All(s) && Points(s.table.hash[t], t, x)
  {
    var x :| x in All(s) && Points(s.table.hash[t], t, x);
    x
  }

  /** The hashed object, if there is one, gives way. */
  ghost function Leaves(s: State, t: Topic): iset<Item>
    requires Indexed(s)
  {
    if t in s.table.hash then iset{HashedItem(s, t)} else iset{}
  }

  /** The message goes to the level it was published for: there is no route there or above. */
  predicate Fresh(s: State, t: Topic, pri: Pri) {
    t in s.table.hash ==> s.table.hash[t].pri > pri
  }

  /** A delete leaves an object behind only if there was a route and someone to tell. */
  predicate Lands(s: State, m: Msg) {
    m.del ==> m.topic in s.table.hash && Clients(s) != {}
  }

  /** The object that stands at a tail afterwards. */
  ghost function Landed(s: State, m: Msg, pri: Pri): (x: Item)
    requires Indexed(s)
    ensures x.e.Obj? && x.l < LEVELS
  {
    var d := Data(s.copies, m);
    if Fresh(s, m.topic, pri)
    then At(pri, Obj(Route(s.routes, 1, pri, m.topic, d), s.levels[pri].id + (if m.del then 2 else 1), m.del))
    else
      var x := HashedItem(s, m.topic);
      At(x.l, Obj(x.e.r.(data := d), s.levels[x.l].id + 1, m.del))
  }

  ghost function TableAfter(s: State, m: Msg, pri: Pri): Table
    requires Indexed(s)
  {
    var t, x, isNew := s.table, Landed(s, m, pri), Fresh(s, m.topic, pri);
    var hash :=
      if !Lands(s, m) || (m.del && isNew) then t.hash - {m.topic}
      else t.hash[m.topic := Ref(x.e.r.handle, x.l)];
    var known := m.topic in t.hash;
    var left := if known && (isNew || !Lands(s, m)) then multiset{HashedItem(s, m.topic).e.r.handle} else multiset{};
    var unused := if !isNew || !Lands(s, m) then multiset{s.routes} else multiset{};
    var replaced := if known then multiset{HashedItem(s, m.topic).e.r.data.copy} else multiset{};
    var dropped := if Lands(s, m) then multiset{} else multiset{s.copies};
    Table(hash, t.freedRoutes + left + unused, t.freedData + replaced + dropped)
  }

  ghost predicate Published(s: State, m: Msg, pri: Pri, t: State)
    requires Indexed(s)
  {
    && Moved(s, t, Leaves(s, m.topic), if Lands(s, m) then iset{Landed(s, m, pri)} else iset{})
    && t.table == TableAfter(s, m, pri)
    && t.routes == s.routes + 1 && t.copies == s.copies + 1
  }

  lemma PublishUnknown(s: State, m: Msg, pri: Pri)
    requires Base(s) && m.topic !in s.table.hash && m.del
    ensures Published(s, m, pri, Publish(s, m, pri))
  {
    assert s.table.hash - {m.topic} == s.table.hash;
    assert All(Publish(s, m, pri)) == All(s);
  }

  lemma PublishNew(s: State, m: Msg, pri: Pri)
    requires Base(s) && m.topic !in s.table.hash && !m.del
    ensures Published(s, m, pri, Publish(s, m, pri))
  {
    var s1 := s.(routes := s.routes + 1, copies := s.copies + 1);
    assert All(s1) == All(s);
    forall x | x in All(s) ensures x.e.r.handle != s.routes { assert Good(s, x); }
    AddMoved(s1, pri, Route(s.routes, 0, pri, m.topic, Data(s.copies, m)));
    assert Items(pri, {Landed(s, m, pri).e}) == iset{Landed(s, m, pri)};
  }

  lemma DelObjMoved(s: State, l: Pri, e: Entry)
    requires Shape(s) && At(l, e) in All(s) && e.r.refcount == 1
    ensures var t := Apply(s, l, DelObj(s.levels[l], e.r.handle));
            if Clients(s) == {}
            then Moved(s, t, iset{At(l, e)}, iset{}) && t == s.(levels := t.levels, table := Unlock(s.table, e.r))
            else Moved(s, t, iset{At(l, e)}, iset{At(l, Obj(e.r, s.levels[l].id + 1, true))}) && t == s.(levels := t.levels)
  {
    hide Inv, Objs, Items, DelNow, MoveToTail, UnlockAll;
    assert s.levels[l].cur == map[] <==> s.levels[l].cur.Keys == {};
    ItemsOne(At(l, e));
    UnlockNone(s.table);
    if Clients(s) == {} {
      DelNowMoved(s, l, e);
    } else {
      TailMoved(s, l, e, true);
      ItemsOne(At(l, Obj(e.r, s.levels[l].id + 1, true)));
    }
  }

  lemma NotListed(s: State, x: Item)
    requires Base(s) && x.e.Obj? && (x.e.r.handle >= s.routes || x.e.r.data.copy >= s.copies)
    ensures x !in All(s)
  {
  }

  /** The common start of a promotion: the hashed object is forced out, the new one is added. */
  lemma PromoteStart(s: State, m: Msg, pri: Pri) returns (s3: State, e: Entry)
    requires Base(s) && m.topic in s.table.hash && s.table.hash[m.topic].pri > pri
    ensures e == Obj(Route(s.routes, 1, pri, m.topic, Data(s.copies, m)), s.levels[pri].id + 1, false)
    ensures Moved(s, s3, Leaves(s, m.topic), iset{At(pri, e)}) && s3.levels[pri].id == s.levels[pri].id + 1
    ensures s3 == s.(levels := s3.levels, table := Unlock(s.table, HashedItem(s, m.topic).e.r),
                     routes := s.routes + 1, copies := s.copies + 1)
    ensures Publish(s, m, pri) ==
            if m.del then Apply(s3, pri, DelObj(s3.levels[pri], s.routes))
            else s3.(table := Insert(s3.table, m.topic, Ref(s.routes, pri)))
  {
    hide Inv, Objs, All, Find, DelNow, AddObj, DelObj, Unlock, UnlockAll;
    var r := Route(s.routes, 0, pri, m.topic, Data(s.copies, m));
    var s1 := s.(routes := s.routes + 1, copies := s.copies + 1);
    var x := HashedItem(s, m.topic);
    AllSame(s, s1);
    assert Good(s, x);
    DelNowMoved(s1, x.l, x.e);
    var s2 := Apply(s1, x.l, DelNow(s1.levels[x.l], x.e.r.handle));
    ItemsOne(x);
    forall y | y in All(s2) ensures y.e.r.handle != s.routes { assert y in All(s) && Good(s, y); }
    AddMoved(s2, pri, r);
    s3 := s2.(levels := s2.levels[pri := AddObj(s2.levels[pri], r)]);
    e := Obj(r.(refcount := 1), s.levels[pri].id + 1, false);
    ItemsOne(At(pri, e));
    assert All(s3) == All(s) - iset{x} + iset{At(pri, e)};
  }

  lemma InsertAfterErase(hash: map<Topic, Ref>, k: Topic, t: Table, x: Ref)
    requires t.hash == hash - {k}
    ensures Insert(t, k, x) == t.(hash := hash[k := x])
  {
  }

  lemma DeletePromoted(s: State, m: Msg, pri: Pri)
    requires Base(s) && m.topic in s.table.hash && s.table.hash[m.topic].pri > pri && m.del
    ensures Published(s, m, pri, Publish(s, m, pri))
  {
    hide Inv, Objs, All, Find, DelObj, Publish, UnlockAll, Unique, Conserved, Indexed, HashedItem, Shape, Apply;
    var s3, e := PromoteStart(s, m, pri);
    var x, n, t := HashedItem(s, m.topic), Landed(s, m, pri), Publish(s, m, pri);
    assert Good(s, x);
    NotListed(s, At(pri, e));
    assert Clients(s3) == Clients(s);
    DelObjMoved(s3, pri, e);
    assert s.table.hash - {m.topic} - {m.topic} == s.table.hash - {m.topic};
    assert All(t) == All(s) - iset{x} + (if Clients(s) == {} then iset{} else iset{n});
  }

  lemma AddPromoted(s: State, m: Msg, pri: Pri)
    requires Base(s) && m.topic in s.table.hash && s.table.hash[m.topic].pri > pri && !m.del
    ensures Published(s, m, pri, Publish(s, m, pri))
  {
    hide Inv, Objs, All, Publish, Unique, Conserved, Indexed, HashedItem, Shape, Insert;
    var s3, e := PromoteStart(s, m, pri);
    assert Good(s, HashedItem(s, m.topic));
    AllSame(s3, Publish(s, m, pri));
    InsertAfterErase(s.table.hash, m.topic, s3.table, Ref(s.routes, pri));
  }

  lemma PublishPromoted(s: State, m: Msg, pri: Pri)
    requires Base(s) && m.topic in s.table.hash && s.table.hash[m.topic].pri > pri
    ensures Published(s, m, pri, Publish(s, m, pri))
  {
    hide Base, Published, Publish;
    if m.del { DeletePromoted(s, m, pri); } else { AddPromoted(s, m, pri); }
  }

  /** The common start of an update in place: the hashed object gets the new payload. */
  lemma InPlaceStart(s: State, m: Msg, pri: Pri) returns (s3: State, e: Entry)
    requires Base(s) && m.topic in s.table.hash && s.table.hash[m.topic].pri <= pri
    ensures var x := HashedItem(s, m.topic);
            && e == x.e.(r := x.e.r.(data := Data(s.copies, m)))
            && Moved(s, s3, iset{x}, iset{At(x.l, e)}) && s3.levels[x.l].id == s.levels[x.l].id
            && s3 == s.(levels := s3.levels, table := FreeRoute(FreeData(s.table, x.e.r.data.copy), s.routes),
                        routes := s.routes + 1, copies := s.copies + 1)
            && Publish(s, m, pri) ==
               if m.del then Apply(s3, x.l, DelObj(s3.levels[x.l], e.r.handle))
               else s3.(levels := s3.levels[x.l := MoveToTail(s3.levels[x.l], e.r.handle, false)])
  {
    hide Inv, Objs, All, Find, SwapData, DelObj, MoveToTail, UnlockAll, Unlock;
    var d, x, a := Data(s.copies, m), HashedItem(s, m.topic), s.table.hash[m.topic];
    var s1 := s.(routes := s.routes + 1, copies := s.copies + 1);
    AllSame(s, s1);
    SwapMoved(s1, a, x.e, d);
    var s2 := SwapData(s1, a, d);
    s3 := s2.(table := FreeRoute(s2.table, s.routes));
    AllSame(s2, s3);
    e := x.e.(r := x.e.r.(data := d));
    ItemsOne(x);
    ItemsOne(At(x.l, e));
  }

  lemma DeleteInPlace(s: State, m: Msg, pri: Pri)
    requires Base(s) && m.topic in s.table.hash && s.table.hash[m.topic].pri <= pri && m.del
    ensures Published(s, m, pri, Publish(s, m, pri))
  {
    hide Inv, Objs, All, Find, DelObj, Publish, UnlockAll, Unique, Conserved, Indexed, HashedItem, Shape, Apply;
    var s3, e := InPlaceStart(s, m, pri);
    var x, n, t := HashedItem(s, m.topic), Landed(s, m, pri), Publish(s, m, pri);
    assert Good(s, x);
    NotListed(s, At(x.l, e));
    assert Clients(s3) == Clients(s);
    DelObjMoved(s3, x.l, e);
    assert All(t) == All(s) - iset{x} + (if Lands(s, m) then iset{n} else iset{});
  }

  lemma AddInPlace(s: State, m: Msg, pri: Pri)
    requires Base(s) && m.topic in s.table.hash && s.table.hash[m.topic].pri <= pri && !m.del
    ensures Published(s, m, pri, Publish(s, m, pri))
  {
    hide Inv, Objs, All, Find, MoveToTail, Publish, Unique, Conserved, Indexed, Items, HashedItem, Shape;
    var s3, e := InPlaceStart(s, m, pri);
    var x, n, t := HashedItem(s, m.topic), Landed(s, m, pri), Publish(s, m, pri);
    assert Good(s, x);
    NotListed(s, At(x.l, e));
    TailMoved(s3, x.l, e, false);
    ItemsOne(At(x.l, e));
    ItemsOne(n);
    assert All(t) == All(s) - iset{x} + iset{n};
  }

  lemma PublishInPlace(s: State, m: Msg, pri: Pri)
    requires Base(s) && m.topic in s.table.hash && s.table.hash[m.topic].pri <= pri
    ensures Published(s, m, pri, Publish(s, m, pri))
  {
    hide Base, Published, Publish;
    if m.del { DeleteInPlace(s, m, pri); } else { AddInPlace(s, m, pri); }
  }

  /** Whatever the branch, publishing replaces the hashed object of the topic by at most one other. */
  lemma PublishIsReplacement(s: State, m: Msg, pri: Pri)
    requires Base(s)
    ensures Published(s, m, pri, Publish(s, m, pri))
  {
    if m.topic !in s.table.hash {
      if m.del { PublishUnknown(s, m, pri); } else { PublishNew(s, m, pri); }
    } else if s.table.hash[m.topic].pri > pri {
      PublishPromoted(s, m, pri);
    } else {
      PublishInPlace(s, m, pri);
    }
  }
}
