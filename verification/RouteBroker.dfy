/**
 broker/route_broker.c as it works: three brokers behind one hash table, updated
 in place.  Each method is proved to be one step of `Runs`, so that what is
 proved of every run is proved of these methods; `obeyed` carries the hypothesis
 of `Convergence` along, so that `Serves` can give its results too.
 */
module RouteBroker {
  import B = Broker
  import R = Routes
  import C = Convergence
  import opened Runs
  import opened CursorBroker
  import opened Traversal

  /** What route_broker_client_get_data has to say: asleep, NULL, or a message. */
  datatype Reply = Asleep | Null | Data(level: R.Pri, msg: B.Msg)

  // ----- what the methods of the class need of the values -----

  lemma FindSome(list: seq<B.Entry>, e: B.Entry)
    requires e in list
    ensures B.Find(list, B.KeyOf(e)) < |list|
  {
  }

  /** The route that the hash table names is in the list that it names. */
  lemma HashedIsListed(s: R.State, t: B.Topic)
    requires R.Base(s) && t in s.table.hash
    ensures var x := s.table.hash[t]; B.Find(s.levels[x.pri].list, B.Handle(x.handle)) < |s.levels[x.pri].list|
  {
  }

  lemma FreshHandle(s: R.State, l: R.Pri)
    requires R.Base(s)
    ensures forall e :: e in B.Objs(s.levels[l]) ==> e.r.handle != s.routes
  {
    hide B.Inv, R.Unique, R.Conserved, R.Indexed;
    forall e | e in B.Objs(s.levels[l]) ensures e.r.handle != s.routes {
      assert R.At(l, e) in R.All(s);
      assert R.Good(s, R.At(l, e));
    }
  }

  /** The new route of a promotion is the last entry of its list. */
  lemma AddedIsListed(b: B.Broker, r: B.Route)
    ensures B.Find(B.AddObj(b, r).list, B.Handle(r.handle)) < |B.AddObj(b, r).list|
  {
    var b' := B.AddObj(b, r);
    FindSome(b'.list, b'.list[|b.list|]);
  }

  lemma SwappedIsListed(b: B.Broker, h: nat, d: B.Data)
    requires B.Find(b.list, B.Handle(h)) < |b.list|
    ensures B.Find(B.SetData(b, h, d).list, B.Handle(h)) < |B.SetData(b, h, d).list|
  {
    var b' := B.SetData(b, h, d);
    FindSome(b'.list, b'.list[B.Find(b.list, B.Handle(h))]);
  }

  /** The client gone from the first `n` levels. */
  ghost function DeleteUpTo(s: R.State, c: B.ClientId, n: nat): R.State
    requires n <= R.LEVELS
  {
    if n == 0 then s else R.Apply(DeleteUpTo(s, c, n - 1), n - 1, B.ClientDelete(s.levels[n - 1], c))
  }

  lemma DeleteUpToAll(s: R.State, c: B.ClientId)
    ensures DeleteUpTo(s, c, 3) == R.ClientDeleteAll(s, c)
  {
    hide B.ClientDelete, R.UnlockAll;
    assert DeleteUpTo(s, c, 0) == s;
    assert DeleteUpTo(s, c, 1) == R.Apply(s, 0, B.ClientDelete(s.levels[0], c));
    assert DeleteUpTo(s, c, 2) == R.Apply(DeleteUpTo(s, c, 1), 1, B.ClientDelete(s.levels[1], c));
  }

  // ----- how far a tour has come -----

  /** The address of the next entry when the first `i` of level `l` are still to be shown. */
  function PtrAt(s: R.State, l: R.Pri, i: nat): Ptr
    requires i <= |s.levels[l].list|
  {
    if i == 0 then Nil else To(B.KeyOf(s.levels[l].list[i - 1]))
  }

  function StartOf(s: R.State, l: R.Pri): Ptr {
    PtrAt(s, l, |s.levels[l].list|)
  }

  function After(s: R.State, l: R.Pri, i: nat): (r: (R.Pri, nat))
    requires 0 < i <= |s.levels[l].list|
    ensures r.1 <= |s.levels[r.0].list|
  {
    if i > 1 then (l, i - 1) else if l < R.LEVELS - 1 then (l + 1, |s.levels[l + 1].list|) else (l, 0)
  }

  /** What is still to be shown, then. */
  function Left(s: R.State, l: R.Pri, i: nat): seq<Stop>
    requires i <= |s.levels[l].list|
  {
    if i == 0 then [] else Back(l, s.levels[l].list, i) + Tour(s, l + 1)
  }

  lemma LeftStart(s: R.State)
    ensures [] + Left(s, 0, |s.levels[0].list|) == Tour(s, 0)
    ensures forall l: R.Pri, out: seq<Stop> :: out + Left(s, l, 0) == out
  {
  }

  lemma BackOne(l: nat, list: seq<B.Entry>)
    requires list != []
    ensures Back(l, list, 1) == [Stop(l, B.KeyOf(list[0]))]
  {
  }

  lemma LeftStep(s: R.State, l: R.Pri, i: nat, out: seq<Stop>)
    requires 0 < i <= |s.levels[l].list|
    ensures out + Left(s, l, i) ==
            out + [Stop(l, B.KeyOf(s.levels[l].list[i - 1]))] + Left(s, After(s, l, i).0, After(s, l, i).1)
  {
    var list, x := s.levels[l].list, [Stop(l, B.KeyOf(s.levels[l].list[i - 1]))];
    if i > 1 {
      hide Tour;
      assert Back(l, list, i) + Tour(s, l + 1) == x + (Back(l, list, i - 1) + Tour(s, l + 1));
    } else {
      hide Back;
      assert Back(l, list, 1) == x by { BackOne(l, list); }
      assert Tour(s, l + 1) == Left(s, After(s, l, i).0, After(s, l, i).1);
    }
  }

  // ----- of states that runs reach -----

  lemma BaseOf(s: Sys)
    requires Sound(s)
    ensures R.Base(s.st) && s.waiting <= s.got.Keys
  {
  }

  lemma RegisteredAll(s: Sys, c: B.ClientId)
    requires Sound(s) && c in s.got
    ensures forall l: R.Pri :: c in s.st.levels[l].cur
  {
  }

  lemma Unregistered(s: Sys, c: B.ClientId)
    requires Sound(s) && c !in s.got
    ensures forall l: R.Pri :: c !in s.st.levels[l].cur
  {
  }

  lemma PublishRegisters(s: Sys, m: B.Msg, pri: R.Pri)
    requires Sound(s)
    ensures forall c, l: R.Pri :: c in s.got ==> c in R.Publish(s.st, m, pri).levels[l].cur
  {
    hide LogOk, R.Base, R.Publish, R.Available, Sound, Reachable, C.Agreed;
    var t := Step(s, Pub(Accept(m), pri));
    StepIsSound(s, Pub(Accept(m), pri));
    forall c, l: R.Pri | c in s.got ensures c in R.Publish(s.st, m, pri).levels[l].cur { RegisteredAll(t, c); }
  }

  class RouteBroker {
    const table: RouteTable
    const brokers: seq<CursorBroker>
    var clientList: seq<B.ClientId>
    var waiting: set<B.ClientId>
    var routes: nat
    var copies: nat
    var processed: nat
    var ignored: nat
    var dropped: nat
    ghost var obeyed: bool  // no publish so far broke the hypothesis of convergence
    ghost var accepted: seq<B.Msg>
    ghost var got: map<B.ClientId, seq<R.Got>>

    ghost predicate Wired() {
      && |brokers| == R.LEVELS
      && (forall i, j :: 0 <= i < j < |brokers| ==> brokers[i] != brokers[j])
      && (forall i :: 0 <= i < |brokers| ==> brokers[i].table == table)
    }

    ghost function State(): R.State
      requires Wired()
      reads this`routes, this`copies, table, brokers
    {
      R.State([brokers[0].View(), brokers[1].View(), brokers[2].View()], table.View(), routes, copies)
    }

    ghost function View(): Sys
      requires Wired()
      reads this`routes, this`copies, this`waiting, this`accepted, this`got, table, brokers
    {
      Sys(State(), waiting, accepted, got)
    }

    /** Every broker is in order; the invariant across brokers may be in suspense. */
    ghost predicate Ready()
      reads this`clientList, this`got, table, brokers
    {
      && Wired() && (forall i :: 0 <= i < |brokers| ==> brokers[i].Valid())
      && (forall c :: c in clientList <==> c in got)
      && (forall i, j :: 0 <= i < j < |clientList| ==> clientList[i] != clientList[j])
    }

    ghost predicate Valid()
      reads this, table, brokers
    {
      Ready() && Reachable(View()) && (obeyed ==> C.Agreed(View()))
    }

    constructor ()
      ensures Valid() && View() == START && obeyed
      ensures fresh(table) && fresh(brokers)
    {
      hide B.Inv, Reachable, C.Agreed, CursorBroker.Valid;
      var t := new RouteTable();
      var b0 := new CursorBroker(t);
      var b1 := new CursorBroker(t);
      var b2 := new CursorBroker(t);
      table, brokers := t, [b0, b1, b2];
      clientList, waiting, routes, copies := [], {}, 0, 0;
      processed, ignored, dropped := 0, 0, 0;
      obeyed, accepted, got := true, [], map[];
      new;
      StartIsReachable();
      C.StartAgrees();
    }

    /** Of a broker whose publishers obeyed: drained clients are right, and so is the hash table. */
    lemma Serves()
      requires Valid() && obeyed
      ensures C.Converged(View()) && C.IndexIsExact(State())
    {
      hide B.Inv, Reachable, Sound, C.Agreed, C.Converged, C.IndexIsExact;
      ReachableIsSound(View());
      C.AgreedConverges(View());
      C.AgreedIndexes(View());
    }

    /** Every event keeps the last two parts of Valid, if it obeys as recorded. */
    lemma EventKeeps(s: Sys, e: Event, was: bool)
      requires Reachable(s) && Enabled(s, e) && (was ==> C.Agreed(s))
      ensures Reachable(Step(s, e)) && (was && C.Obeys(s, e) ==> C.Agreed(Step(s, e)))
    {
      hide Reachable, C.Agreed, C.Obeys, Step, Enabled;
      StepIsReachable(s, e);
      if was && C.Obeys(s, e) { C.StepConverges(s, e); }
    }

    lemma LevelsInv()
      requires Ready()
      ensures Wired() && forall l: R.Pri :: B.Inv(State().levels[l])
    {
    }

    // ----- one broker at a time -----

    method DelNowAt(l: R.Pri, h: nat)
      requires Ready() && B.Find(State().levels[l].list, B.Handle(h)) < |State().levels[l].list|
      modifies brokers[l], table
      ensures Ready() && State() == R.Apply(old(State()), l, B.DelNow(old(State()).levels[l], h))
    {
      hide B.Inv, B.Find, B.DelNow, R.UnlockAll;
      brokers[l].DelObjNow(h);
    }

    method DelObjAt(l: R.Pri, h: nat)
      requires Ready() && B.Find(State().levels[l].list, B.Handle(h)) < |State().levels[l].list|
      requires State().levels[l].id < MAX_ID
      modifies brokers[l], table
      ensures Ready() && State() == R.Apply(old(State()), l, B.DelObj(old(State()).levels[l], h))
    {
      hide B.Inv, B.Find, B.DelObj, R.UnlockAll;
      brokers[l].DelObj(h);
    }

    method AddAt(l: R.Pri, r: B.Route)
      requires Ready() && (forall e :: e in B.Objs(State().levels[l]) ==> e.r.handle != r.handle)
      requires State().levels[l].id < MAX_ID
      modifies brokers[l]
      ensures Ready()
      ensures State() == old(State()).(levels := old(State()).levels[l := B.AddObj(old(State()).levels[l], r)])
    {
      hide B.Inv, B.AddObj, B.Objs;
      brokers[l].AddObj(r);
    }

    method UpdAt(l: R.Pri, h: nat)
      requires Ready() && B.Find(State().levels[l].list, B.Handle(h)) < |State().levels[l].list|
      requires State().levels[l].id < MAX_ID
      modifies brokers[l]
      ensures Ready()
      ensures State() == old(State()).(levels := old(State()).levels[l := B.UpdObj(old(State()).levels[l], h)])
    {
      hide B.Inv, B.Find, B.UpdObj;
      brokers[l].UpdObj(h);
    }

    method SwapDataAt(x: R.Ref, d: B.Data)
      requires Ready() && B.Find(State().levels[x.pri].list, B.Handle(x.handle)) < |State().levels[x.pri].list|
      modifies brokers[x.pri], table
      ensures Ready() && State() == R.SwapData(old(State()), x, d)
    {
      hide B.Inv, B.Find, B.SetData;
      var was := brokers[x.pri].SetData(x.handle, d);
      table.FreeData(was.copy);
    }

    // ----- publishing -----

    method AddNew(r: B.Route, pri: R.Pri)
      requires Ready() && (forall e :: e in B.Objs(State().levels[pri]) ==> e.r.handle != r.handle)
      requires State().levels[pri].id < MAX_ID
      modifies table, brokers
      ensures Ready() && State() == R.AddNew(old(State()), r, pri)
    {
      hide B.Inv, B.AddObj, B.Objs;
      AddAt(pri, r);
      table.Insert(r.topic, R.Ref(r.handle, pri));
    }

    method Promote(x: R.Ref, r: B.Route, pri: R.Pri)
      requires Ready() && x.pri > pri
      requires B.Find(State().levels[x.pri].list, B.Handle(x.handle)) < |State().levels[x.pri].list|
      requires forall e :: e in B.Objs(State().levels[pri]) ==> e.r.handle != r.handle
      requires State().levels[pri].id + 2 <= MAX_ID
      modifies table, brokers
      ensures Ready() && State() == R.Promote(old(State()), x, r, pri)
    {
      hide B.Inv, B.Find, B.DelNow, B.DelObj, B.Objs, R.UnlockAll, CursorBroker.Valid;
      DelNowAt(x.pri, x.handle);
      ghost var b := State().levels[pri];
      AddAt(pri, r);
      if r.data.msg.del {
        AddedIsListed(b, r);
        DelObjAt(pri, r.handle);
      } else {
        table.Insert(r.topic, R.Ref(r.handle, pri));
      }
    }

    method UpdateInPlace(x: R.Ref, r: B.Route)
      requires Ready() && B.Find(State().levels[x.pri].list, B.Handle(x.handle)) < |State().levels[x.pri].list|
      requires State().levels[x.pri].id < MAX_ID
      modifies table, brokers
      ensures Ready() && State() == R.UpdateInPlace(old(State()), x, r)
    {
      hide B.Inv, B.Find, B.DelObj, B.UpdObj, R.UnlockAll;
      SwappedIsListed(State().levels[x.pri], x.handle, r.data);
      SwapDataAt(x, r.data);
      table.FreeRoute(r.handle);
      if r.data.msg.del {
        DelObjAt(x.pri, x.handle);
      } else {
        UpdAt(x.pri, x.handle);
      }
    }

    method PublishLocked(m: B.Msg, pri: R.Pri)
      requires Ready() && R.Base(State())
      requires forall l: R.Pri :: State().levels[l].id + 2 <= MAX_ID
      modifies this`routes, this`copies, table, brokers
      ensures Ready() && State() == R.Publish(old(State()), m, pri)
    {
      hide B.Inv, B.Find, B.Objs, R.Base, R.Promote, R.UpdateInPlace, R.AddNew, CursorBroker.Valid;
      ghost var s := State();
      var r := B.Route(routes, 0, pri, m.topic, B.Data(copies, m));
      routes, copies := routes + 1, copies + 1;
      ghost var s1 := State();
      assert s1 == s.(routes := s.routes + 1, copies := s.copies + 1);
      if m.topic in table.hash {
        var x := table.hash[m.topic];
        HashedIsListed(s, m.topic);
        if x.pri > pri {
          FreshHandle(s, pri);
          Promote(x, r, pri);
        } else {
          UpdateInPlace(x, r);
        }
      } else if m.del {
        table.FreeData(r.data.copy);
        table.FreeRoute(r.handle);
      } else {
        FreshHandle(s, pri);
        AddNew(r, pri);
      }
    }

    /** data_available_for_client: the first level whose id is not the client's, or -1. */
    method DataAvailable(c: B.ClientId) returns (level: int)
      requires Ready() && forall l: R.Pri :: c in State().levels[l].cur
      ensures level == if HasData(State(), c) then R.Available(State(), c) else -1
    {
      hide B.Inv;
      for i := 0 to R.LEVELS
        invariant forall l: R.Pri :: l < i ==> !R.Behind(State(), l, c)
      {
        assert State().levels[i].cur == brokers[i].cursor && State().levels[i].id == brokers[i].id;
        assert c in State().levels[i].cur;
        if brokers[i].cursor[c] != brokers[i].id {
          return i;
        }
      }
      return -1;
    }

    /** Signal every client that has something to read. */
    method WakeClients()
      requires Ready() && waiting <= got.Keys
      requires forall c, l: R.Pri :: c in got ==> c in State().levels[l].cur
      modifies this`waiting
      ensures waiting == set c | c in old(waiting) && !HasData(State(), c)
    {
      hide B.Inv, R.Available, CursorBroker.Valid, State;
      for n := 0 to |clientList|
        invariant State() == old(State())
        invariant waiting == set c | c in old(waiting) && (c in clientList[..n] ==> !HasData(State(), c))
      {
        var c := clientList[n];
        assert c in clientList && c in got;
        assert forall l: R.Pri :: c in State().levels[l].cur;
        var level := DataAvailable(c);
        if level >= 0 {
          waiting := waiting - {c};
        }
        assert clientList[..n + 1] == clientList[..n] + [c];
      }
      assert clientList[..|clientList|] == clientList;
    }

    /** The route, and the payload if it was copied, are freed again. */
    method Discard(copied: bool)
      requires Ready()
      modifies this`routes, this`copies, table
      ensures Ready() && View() == old(View()).(st := Runs.Discard(old(State()), copied))
    {
      hide B.Inv, CursorBroker.Valid;
      table.FreeRoute(routes);
      routes := routes + 1;
      if copied {
        table.FreeData(copies);
        copies := copies + 1;
      }
    }

    /** What object_broker_publish does while it holds the mutex. */
    method PublishAndWake(m: B.Msg, pri: R.Pri)
      requires Ready() && Reachable(View()) && forall l: R.Pri :: State().levels[l].id + 2 <= MAX_ID
      modifies this`routes, this`copies, this`waiting, this`accepted, table, brokers
      ensures Ready() && View() == Step(old(View()), Pub(Accept(m), pri))
    {
      hide B.Inv, R.Base, R.Publish, LogOk, R.Available, Sound, Reachable, C.Agreed;
      ghost var s := View();
      ReachableIsSound(s);
      BaseOf(s);
      PublishRegisters(s, m, pri);
      PublishLocked(m, pri);
      accepted := accepted + [m];
      assert State() == R.Publish(s.st, m, pri);
      WakeClients();
    }

    /** object_broker_publish. */
    method Publish(i: Input, pri: R.Pri)
      requires Valid() && forall l: R.Pri :: State().levels[l].id + 2 <= MAX_ID
      modifies this, table, brokers
      ensures Valid() && View() == Step(old(View()), Pub(i, pri))
      ensures obeyed == (old(obeyed) && C.Obeys(old(View()), Pub(i, pri)))
      ensures processed == old(processed) + 1
      ensures ignored == old(ignored) + if i.NoTopic? then 1 else 0
      ensures dropped == old(dropped) + if i.NoRoute? || i.NoCopy? then 1 else 0
    {
      hide B.Inv, R.Publish, R.Available, Reachable, Runs.Discard, C.Agreed, C.Obeys, CursorBroker.Valid, State;
      EventKeeps(View(), Pub(i, pri), obeyed);
      obeyed := obeyed && C.Obeys(View(), Pub(i, pri));
      processed := processed + 1;
      match i
      case NoRoute =>
        dropped := dropped + 1;
      case NoCopy =>
        dropped := dropped + 1;
        Discard(false);
      case NoTopic =>
        ignored := ignored + 1;
        Discard(true);
      case Accept(m) =>
        PublishAndWake(m, pri);
    }

    // ----- clients -----

    method CreateAtAll(c: B.ClientId)
      requires Ready() && forall l: R.Pri :: c !in State().levels[l].cur
      modifies brokers
      ensures Ready() && State() == R.ClientCreateAll(old(State()), c)
    {
      hide B.Inv, B.ClientCreate;
      ghost var s := State();
      for i := 0 to R.LEVELS
        invariant Ready() && table.View() == s.table
        invariant forall l: R.Pri :: brokers[l].View() == if l < i then B.ClientCreate(s.levels[l], c) else s.levels[l]
      {
        assert brokers[i].View() == s.levels[i];
        brokers[i].ClientCreate(c);
      }
    }

    /** route_broker_client_create: a cursor at the head of every level. */
    method ClientCreate(c: B.ClientId)
      requires Valid() && c !in got
      modifies this, brokers
      ensures Valid() && View() == Step(old(View()), Join(c)) && obeyed == old(obeyed)
    {
      hide B.Inv, R.ClientCreateAll, Sound, Reachable, C.Agreed, CursorBroker.Valid, State;
      ghost var s := View();
      ReachableIsSound(s);
      EventKeeps(s, Join(c), obeyed);
      Unregistered(s, c);
      CreateAtAll(c);
      clientList := [c] + clientList;
      got := got[c := []];
    }

    method DeleteAt(l: R.Pri, c: B.ClientId)
      requires Ready() && c in State().levels[l].cur
      modifies brokers[l], table
      ensures Ready() && State() == R.Apply(old(State()), l, B.ClientDelete(old(State()).levels[l], c))
    {
      hide B.Inv, B.ClientDelete, R.UnlockAll;
      brokers[l].ClientDelete(c);
    }

    method DeleteAtAll(c: B.ClientId)
      requires Ready() && forall l: R.Pri :: c in State().levels[l].cur
      modifies table, brokers
      ensures Ready() && State() == R.ClientDeleteAll(old(State()), c)
    {
      hide B.Inv, B.ClientDelete, R.UnlockAll;
      ghost var s := State();
      for i := 0 to R.LEVELS
        invariant Ready() && State() == DeleteUpTo(s, c, i)
        invariant forall l: R.Pri :: l >= i ==> State().levels[l] == s.levels[l]
      {
        DeleteAt(i, c);
      }
      assert State() == DeleteUpTo(s, c, 3) == R.ClientDeleteAll(s, c) by { DeleteUpToAll(s, c); }
    }

    method Forget(c: B.ClientId)
      requires Ready() && c in got
      modifies this`clientList, this`got
      ensures Ready() && got == old(got) - {c}
    {
      hide B.Inv, CursorBroker.Valid;
      var p :| 0 <= p < |clientList| && clientList[p] == c;
      UnlinkClient(clientList, p);
      clientList := clientList[..p] + clientList[p + 1..];
      got := got - {c};
    }

    /** route_broker_client_delete: the cursors go, and the tombstones that only they held back. */
    method ClientDelete(c: B.ClientId)
      requires Valid() && c in got && c !in waiting
      modifies this, table, brokers
      ensures Valid() && View() == Step(old(View()), Leave(c)) && obeyed == old(obeyed)
    {
      hide B.Inv, R.ClientDeleteAll, Sound, Reachable, C.Agreed, CursorBroker.Valid, State;
      ghost var s := View();
      ReachableIsSound(s);
      EventKeeps(s, Leave(c), obeyed);
      RegisteredAll(s, c);
      DeleteAtAll(c);
      Forget(c);
    }

    method ReadAt(l: R.Pri, c: B.ClientId) returns (found: bool, o: B.Entry)
      requires Ready() && c in State().levels[l].cur
      modifies brokers[l], table
      ensures Ready() && State() == R.Read(old(State()), l, c)
      ensures found <==> B.NextFor(old(State()).levels[l], c) < |old(State()).levels[l].list|
      ensures found ==> o == old(State()).levels[l].list[B.NextFor(old(State()).levels[l], c)]
    {
      hide B.Inv, B.GetData, R.UnlockAll, B.NextFor;
      found, o := brokers[l].GetData(c);
    }

    /** One pass of route_broker_client_get_data under the mutex. */
    method GetData(c: B.ClientId) returns (r: Reply)
      requires Valid() && c in got && c !in waiting
      modifies this, table, brokers
      ensures Valid() && View() == Step(old(View()), Get(c)) && obeyed == old(obeyed)
      ensures waiting == old(waiting) + (if r.Asleep? then {c} else {}) && (r.Asleep? <==> c in waiting)
      ensures match r
              case Asleep => !HasData(old(State()), c)
              case Null => HasData(old(State()), c) && R.Next(old(State()), R.Available(old(State()), c), c).None?
              case Data(l, m) => && HasData(old(State()), c) && l == R.Available(old(State()), c)
                                 && R.Next(old(State()), l, c).Some? && R.Next(old(State()), l, c).value.msg == m
    {
      hide B.Inv, R.Read, Sound, Reachable, C.Agreed, B.NextFor, R.Available, CursorBroker.Valid, State;
      ghost var s := View();
      ReachableIsSound(s);
      EventKeeps(s, Get(c), obeyed);
      RegisteredAll(s, c);
      var level := DataAvailable(c);
      if level < 0 {
        waiting := waiting + {c};
        return Asleep;
      }
      var found, o := ReadAt(level, c);
      if found {
        got := got[c := got[c] + [R.Got(level, o.id, o.r.data.msg)]];
        return Data(level, o.r.data.msg);
      } else {
        assert got[c] + [] == got[c] && got[c := got[c]] == got;
        return Null;
      }
    }

    /** The condition wait of `c` ends without a signal. */
    method TimeOut(c: B.ClientId)
      requires Valid() && c in waiting
      modifies this`waiting
      ensures Valid() && View() == Step(old(View()), Wake(c)) && obeyed == old(obeyed)
    {
      hide B.Inv, Reachable, C.Agreed, CursorBroker.Valid, State;
      EventKeeps(View(), Wake(c), obeyed);
      waiting := waiting - {c};
    }

    // ----- the tour of route_broker_show -----

    method SeqFirst() returns (p: Ptr, pri: R.Pri)
      requires Ready()
      ensures pri == 0 && p == StartOf(State(), 0)
    {
      pri := 0;
      p := brokers[pri].SeqStart();
    }

    method SeqNext(k: B.Key, pri: R.Pri) returns (p: Ptr, pri': R.Pri)
      requires Ready() && B.Find(State().levels[pri].list, k) < |State().levels[pri].list|
      ensures var list := State().levels[pri].list;
              var i := B.Find(list, k);
              if i > 0 then pri' == pri && p == To(B.KeyOf(list[i - 1]))
              else if pri < R.LEVELS - 1 then pri' == pri + 1 && p == StartOf(State(), pri + 1)
              else pri' == pri && p == Nil
    {
      hide B.Inv, B.Find;
      pri' := pri;
      p := brokers[pri].SeqNext(k);
      if p == Nil && pri < R.LEVELS - 1 {
        pri' := pri + 1;
        p := brokers[pri'].SeqStart();
      }
    }

    /** The loop of route_broker_show_internal: what it shows, in order. */
    method Show() returns (out: seq<Stop>)
      requires Ready()
      ensures out == Tour(State(), 0)
    {
      hide B.Inv, B.Find, Left, Tour, Ready, State, B.Cut, Wired;
      LevelsInv();
      ghost var s := State();
      LeftStart(s);
      var p, pri := SeqFirst();
      out := [];
      ghost var i: nat := |s.levels[0].list|;
      while p != Nil
        invariant pri < R.LEVELS && i <= |s.levels[pri].list|
        invariant p == PtrAt(s, pri, i)
        invariant out + Left(s, pri, i) == Tour(s, 0)
        decreases R.LEVELS - pri, i
      {
        PositionOf(s.levels[pri], i - 1);
        LeftStep(s, pri, i, out);
        out := out + [Stop(pri, p.k)];
        i := After(s, pri, i).1;
        p, pri := SeqNext(p.k, pri);
      }
    }
  }
}
