/**
 broker/broker.c as it works: a list that is relinked in place, an id counter,
 and the loops over clients and entries.  Each method is proved to do what the
 function of the same name in `Broker` says.
 */
module CursorBroker {
  import B = Broker
  import R = Routes

  /** uint64_t: ids are assumed not to wrap. */
  const MAX_ID: nat := 0xFFFF_FFFF_FFFF_FFFF

  /** The address of an entry, or NULL. */
  datatype Ptr = Nil | To(k: B.Key)

  /** The side of route_broker.c that a broker calls back: the hash table and what was freed. */
  class RouteTable {
    var hash: map<B.Topic, R.Ref>
    var freedRoutes: multiset<nat>
    var freedData: multiset<nat>

    ghost function View(): R.Table
      reads this
    {
      R.Table(hash, freedRoutes, freedData)
    }

    constructor ()
      ensures View() == R.INITIAL.table
    {
      hash, freedRoutes, freedData := map[], multiset{}, multiset{};
    }

    method FreeRoute(h: nat)
      modifies this
      ensures View() == R.FreeRoute(old(View()), h)
    {
      freedRoutes := freedRoutes + multiset{h};
    }

    method FreeData(copy: nat)
      modifies this
      ensures View() == R.FreeData(old(View()), copy)
    {
      freedData := freedData + multiset{copy};
    }

    method Insert(topic: B.Topic, x: R.Ref)
      modifies this
      ensures View() == R.Insert(old(View()), topic, x)
    {
      if topic !in hash {
        hash := hash[topic := x];
      }
    }

    /** rib_route_unlock: the last reference takes the hash entry and the memory with it. */
    method UnlockObj(r: B.Route)
      requires r.refcount > 0
      modifies this
      ensures View() == R.Unlock(old(View()), r)
    {
      var refcount := r.refcount - 1;
      if refcount == 0 {
        hash := hash - {r.topic};
        FreeData(r.data.copy);
        FreeRoute(r.handle);
      }
    }
  }

  // ----- the walk of broker_client_delete, one entry at a time -----

  lemma {:induction false} KeptSnoc(s: seq<B.Entry>, e: B.Entry, cur: map<B.ClientId, nat>)
    ensures B.Kept(s + [e], cur) == B.Kept(s, cur) + (if B.Keep(cur, e) then [e] else [])
    ensures B.Reaped(s + [e], cur) == B.Reaped(s, cur) + (if B.Keep(cur, e) then [] else [e.r])
  {
    if s == [] {
      assert s + [e] == [e];
    } else {
      assert (s + [e])[1..] == s[1..] + [e];
      KeptSnoc(s[1..], e, cur);
    }
  }

  lemma {:induction false} UnlockAllSnoc(t: R.Table, rs: seq<B.Route>, r: B.Route)
    ensures R.UnlockAll(t, rs + [r]) == R.Unlock(R.UnlockAll(t, rs), r)
    decreases |rs|
  {
    if rs == [] {
      assert rs + [r] == [r] && [r][1..] == [];
    } else {
      assert (rs + [r])[1..] == rs[1..] + [r];
      UnlockAllSnoc(R.Unlock(t, rs[0]), rs[1..], r);
    }
  }

  lemma WalkStart(list: seq<B.Entry>, cur: map<B.ClientId, nat>, t: R.Table)
    ensures B.Kept(list[..0], cur) == [] && t == R.UnlockAll(t, B.Reaped(list[..0], cur)) && list[0..] == list
  {
  }

  /** What is known of entry `i` of the walked list, and what follows for both ways to go on. */
  lemma WalkStep(b1: B.Broker, list: seq<B.Entry>, i: nat, n: nat, t: R.Table)
    requires i < |list| && n <= |b1.list|
    requires list[..i] == B.Kept(b1.list[..n], b1.cur) && list[i..] == b1.list[n..]
    ensures n < |b1.list| && list[i] == b1.list[n] && list[i + 1..] == b1.list[n + 1..]
    ensures var keep := B.Keep(b1.cur, list[i]);
            && B.Kept(b1.list[..n + 1], b1.cur) == (if keep then list[..i + 1] else list[..i])
            && R.UnlockAll(t, B.Reaped(b1.list[..n + 1], b1.cur)) ==
               var u := R.UnlockAll(t, B.Reaped(b1.list[..n], b1.cur));
               if keep then u else R.Unlock(u, list[i].r)
    ensures var cut := list[..i] + list[i + 1..]; cut[..i] == list[..i] && cut[i..] == list[i + 1..]
  {
    hide B.Kept, B.Reaped, R.UnlockAll, R.Unlock, B.Needed;
    assert |list[i..]| == |b1.list[n..]|;
    var e := list[i];
    assert e == list[i..][0] == b1.list[n];
    assert list[i + 1..] == list[i..][1..] == b1.list[n..][1..] == b1.list[n + 1..];
    assert b1.list[..n + 1] == b1.list[..n] + [e];
    assert list[..i + 1] == list[..i] + [e];
    KeptSnoc(b1.list[..n], e, b1.cur);
    var g := B.Reaped(b1.list[..n], b1.cur);
    assert g + [] == g;
    if !B.Keep(b1.cur, e) { UnlockAllSnoc(t, g, e.r); }
  }

  lemma NextMeansHas(list: seq<B.Entry>, j: nat)
    requires 0 < |list| && j == B.NextObj(list, 1)
    ensures j < |list| <==> B.HasObj(list[1..])
  {
  }

  lemma UnlinkClient(cs: seq<B.ClientId>, p: nat)
    requires p < |cs| && forall i, j :: 0 <= i < j < |cs| ==> cs[i] != cs[j]
    ensures var ds := cs[..p] + cs[p + 1..];
            && (forall d :: d in ds <==> d in cs && d != cs[p])
            && (forall i, j :: 0 <= i < j < |ds| ==> ds[i] != ds[j])
  {
  }

  class CursorBroker {
    const table: RouteTable
    var list: seq<B.Entry>
    var id: nat
    var clients: seq<B.ClientId>
    var cursor: map<B.ClientId, nat>

    ghost function View(): B.Broker
      reads this
    {
      B.Broker(list, id, cursor)
    }

    ghost predicate ClientsListed()
      reads this
    {
      && (forall c :: c in clients <==> c in cursor)
      && (forall i, j :: 0 <= i < j < |clients| ==> clients[i] != clients[j])
    }

    ghost predicate Valid()
      reads this
    {
      && B.Inv(View()) && ClientsListed() && id <= MAX_ID
      && (forall e :: e in list && e.Obj? ==> e.r.refcount > 0)
    }

    constructor (table: RouteTable)
      ensures Valid() && View() == B.EMPTY && this.table == table
    {
      this.table := table;
      list, id, clients, cursor := [], 0, [], map[];
    }

    lemma ValidCut()
      requires Valid()
      ensures B.Cut(list, cursor)
    {
      B.CutOf(View());
    }

    /** The minimum over the client list, against the id of entry `i`. */
    method NoClientsNeedThis(i: nat) returns (r: bool)
      requires Valid() && i < |list| && list[i].Obj?
      ensures r <==> !B.Needed(cursor, list[i].id)
      ensures r <==> forall j :: 0 <= j < i ==> list[j].Obj?
    {
      B.NeededIsPositional(View(), i);
      assert B.InRange(View(), list[i]);
      if |clients| == 0 {
        assert forall c :: c in cursor ==> c in clients;
        return true;
      }
      var min := MAX_ID;
      for n := 0 to |clients|
        invariant forall k :: 0 <= k < n ==> min <= cursor[clients[k]]
        invariant min == MAX_ID || exists k :: 0 <= k < n && min == cursor[clients[k]]
      {
        assert clients[n] in clients;
        if cursor[clients[n]] < min {
          min := cursor[clients[n]];
        }
      }
      r := min >= list[i].id;
    }

    method AddObj(r: B.Route)
      requires Valid() && id < MAX_ID
      requires forall e :: e in B.Objs(View()) ==> e.r.handle != r.handle
      modifies this
      ensures Valid() && View() == B.AddObj(old(View()), r)
    {
      hide B.Inv;
      B.AddObjFacts(View(), r);
      id := id + 1;
      list := list + [B.Obj(r.(refcount := r.refcount + 1), id, false)];
    }

    method DelObjNow(h: nat)
      requires Valid() && B.Find(list, B.Handle(h)) < |list|
      modifies this`list, table
      ensures Valid() && View() == B.DelNow(old(View()), h).b
      ensures table.View() == R.UnlockAll(old(table.View()), B.DelNow(old(View()), h).gone)
    {
      var i := B.Find(list, B.Handle(h));
      hide B.Inv, R.UnlockAll;
      var e := list[i];
      B.DelNowFacts(View(), e);
      R.UnlockOne(table.View(), e.r);
      list := list[..i] + list[i + 1..];
      table.UnlockObj(e.r);
    }

    method MoveToTail(h: nat, del: bool)
      requires Valid() && id < MAX_ID && B.Find(list, B.Handle(h)) < |list|
      modifies this`list, this`id
      ensures Valid() && View() == B.MoveToTail(old(View()), h, del)
    {
      hide B.Inv, B.Find;
      var i := B.Find(list, B.Handle(h));
      var e := list[i];
      B.MoveToTailFacts(View(), e, del);
      list := list[..i] + list[i + 1..];
      id := id + 1;
      list := list + [B.Obj(e.r, id, del)];
    }

    lemma ClientsEmpty()
      requires ClientsListed()
      ensures clients == [] <==> cursor == map[]
    {
      assert clients != [] ==> clients[0] in clients;
      assert clients == [] ==> forall c :: c !in cursor;
    }

    method DelObj(h: nat)
      requires Valid() && id < MAX_ID && B.Find(list, B.Handle(h)) < |list|
      modifies this`list, this`id, table
      ensures Valid() && View() == B.DelObj(old(View()), h).b
      ensures table.View() == R.UnlockAll(old(table.View()), B.DelObj(old(View()), h).gone)
    {
      assert clients == [] <==> cursor == map[] by { ClientsEmpty(); }
      if |clients| == 0 {
        DelObjNow(h);
      } else {
        MoveToTail(h, true);
      }
    }

    method UpdObj(h: nat)
      requires Valid() && id < MAX_ID && B.Find(list, B.Handle(h)) < |list|
      modifies this`list, this`id
      ensures Valid() && View() == B.UpdObj(old(View()), h)
    {
      MoveToTail(h, false);
    }

    method SetData(h: nat, d: B.Data) returns (was: B.Data)
      requires Valid() && B.Find(list, B.Handle(h)) < |list|
      modifies this`list
      ensures Valid() && View() == B.SetData(old(View()), h, d)
      ensures was == old(list)[B.Find(old(list), B.Handle(h))].r.data
    {
      hide B.Inv;
      var i := B.Find(list, B.Handle(h));
      B.SetDataFacts(View(), list[i], d);
      was := list[i].r.data;
      list := list[i := list[i].(r := list[i].r.(data := d))];
    }

    /** broker_get_next_data_obj: the first data object after entry `i`, or the length of the list. */
    method NextDataObj(i: nat) returns (j: nat)
      requires i < |list|
      ensures j == B.NextObj(list, i + 1)
    {
      j := i + 1;
      while j < |list| && list[j].Cursor?
        invariant i < j <= |list| && B.NextObj(list, i + 1) == B.NextObj(list, j)
      {
        j := j + 1;
      }
    }

    method ClientCreate(c: B.ClientId)
      requires Valid() && c !in cursor
      modifies this
      ensures Valid() && View() == B.ClientCreate(old(View()), c)
    {
      hide B.Inv, B.Objs, B.Pending, B.HasObj, B.NextObj;
      B.ClientCreateFacts(View(), c);
      clients := [c] + clients;
      list := [B.Cursor(c)] + list;
      cursor := cursor[c := 0];
      var j := NextDataObj(0);
      assert list[1..] == old(list);
      NextMeansHas(list, j);
      if j == |list| {
        cursor := cursor[c := id];
      }
      assert cursor == old(cursor)[c := if B.HasObj(old(list)) then 0 else id];
      assert View() == B.ClientCreate(old(View()), c);
    }

    /** CIRCLEQ_REMOVE and CIRCLEQ_INSERT_AFTER on the cursor of `c`. */
    method AdvanceCursor(c: B.ClientId, o: B.Entry)
      requires Valid() && c in cursor && o in B.Objs(View())
      modifies this`list, this`cursor
      ensures Valid() && View() == B.Advance(old(View()), c, o)
    {
      hide B.Inv, B.Find, B.InsertAt, B.Remove;
      ghost var b := View();
      B.AdvanceFacts(b, c, o);
      list := B.Remove(list, B.Client(c));
      var i := B.Find(list, B.KeyOf(o));
      if i < |list| {
        list := B.InsertAt(list, i + 1, B.Cursor(c));
      }
      cursor := cursor[c := o.id];
      assert b.cur[c := o.id] == (b.cur - {c})[c := o.id];
      forall e | e in list && e.Obj? ensures e.r.refcount > 0 { assert e in B.Objs(View()) && e in B.Objs(b); }
    }

    /** Returns the object delivered, if any. */
    method GetData(c: B.ClientId) returns (found: bool, o: B.Entry)
      requires Valid() && c in cursor
      modifies this`list, this`cursor, table
      ensures Valid() && View() == B.GetData(old(View()), c).b
      ensures table.View() == R.UnlockAll(old(table.View()), B.GetData(old(View()), c).gone)
      ensures found <==> B.NextFor(old(View()), c) < |old(list)|
      ensures found ==> o == old(list)[B.NextFor(old(View()), c)]
    {
      hide B.Inv, B.Advance, B.DelNow, B.Find, B.Needed, B.Remove;
      ghost var b := View();
      B.RemoveCursorFacts(b, c);
      B.NextForIsLeastPending(b, c);
      B.GetDataFacts(b, c);
      var j := NextDataObj(B.Find(list, B.Client(c)));
      found, o := j < |list|, B.Cursor(c);
      if !found {
        cursor := cursor[c := id];
        return;
      }
      o := list[j];
      B.AdvanceFacts(b, c, o);
      AdvanceCursor(c, o);
      if o.del {
        B.CutOf(View());
        assert o in B.Objs(View());
        B.FindListed(list, o, cursor);
        var unneeded := NoClientsNeedThis(B.Find(list, B.KeyOf(o)));
        if unneeded {
          DelObjNow(o.r.handle);
        }
      }
    }

    /** The client leaves both lists. */
    method Unlink(c: B.ClientId)
      requires Valid() && c in cursor
      modifies this
      ensures Valid() && View() == B.RemoveCursor(old(View()), c)
    {
      hide B.Inv, B.Find, B.Remove;
      ghost var b := View();
      B.RemoveCursorFacts(b, c);
      var p :| 0 <= p < |clients| && clients[p] == c;
      UnlinkClient(clients, p);
      clients := clients[..p] + clients[p + 1..];
      list := B.Remove(list, B.Client(c));
      cursor := cursor - {c};
      forall e | e in list && e.Obj? ensures e.r.refcount > 0 { assert e in B.Objs(View()) && e in B.Objs(b); }
    }

    method DropAt(i: nat)
      requires Valid() && i < |list| && list[i].Obj? && B.Find(list, B.KeyOf(list[i])) == i
      modifies this`list, table
      ensures Valid() && list == old(list)[..i] + old(list)[i + 1..]
      ensures table.View() == R.Unlock(old(table.View()), old(list)[i].r)
    {
      ghost var r := list[i].r;
      UnlockAllSnoc(table.View(), [], r);
      assert [] + [r] == [r];
      DelObjNow(list[i].r.handle);
    }

    /** Walks the list while removing from it: every entry that was left is looked at once. */
    method ClientDelete(c: B.ClientId)
      requires Valid() && c in cursor
      modifies this, table
      ensures Valid() && View() == B.ClientDelete(old(View()), c).b
      ensures table.View() == R.UnlockAll(old(table.View()), B.ClientDelete(old(View()), c).gone)
    {
      hide B.Find, B.Kept, B.Reaped, R.UnlockAll, B.Needed, Valid;
      Unlink(c);
      ghost var b1 := View();
      var i := 0;
      ghost var n := 0;
      WalkStart(b1.list, b1.cur, table.View());
      while i < |list|
        invariant n <= |b1.list| && i <= |list|
        invariant list[..i] == B.Kept(b1.list[..n], b1.cur) && list[i..] == b1.list[n..]
        invariant table.View() == R.UnlockAll(old(table.View()), B.Reaped(b1.list[..n], b1.cur))
        invariant Valid() && id == b1.id && cursor == b1.cur
        decreases |b1.list| - n
      {
        var e := list[i];
        WalkStep(b1, list, i, n, old(table.View()));
        ValidCut();
        B.FindListed(list, e, cursor);
        var drop := false;
        if e.Obj? && e.del {
          drop := NoClientsNeedThis(i);
        }
        if drop {
          DropAt(i);
        } else {
          i := i + 1;
        }
        n := n + 1;
      }
      assert b1.list[..n] == b1.list && list[..i] == list;
    }

    /** broker_seq_start: the newest entry. */
    method SeqStart() returns (p: Ptr)
      ensures p == if list == [] then Nil else To(B.KeyOf(list[|list| - 1]))
    {
      p := if |list| == 0 then Nil else To(B.KeyOf(list[|list| - 1]));
    }

    /** broker_seq_next: the entry before. */
    method SeqNext(k: B.Key) returns (p: Ptr)
      requires B.Find(list, k) < |list|
      ensures p == if B.Find(list, k) == 0 then Nil else To(B.KeyOf(list[B.Find(list, k) - 1]))
    {
      var i := B.Find(list, k);
      p := if i == 0 then Nil else To(B.KeyOf(list[i - 1]));
    }
  }
}
