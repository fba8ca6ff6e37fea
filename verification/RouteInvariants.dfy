/**
 What every operation of the route broker keeps, whatever is published: `Base`.
 */
module RouteInvariants {
  import opened Broker
  import opened Routes

  // ----- publishing -----

  lemma LandedIsGood(s: State, m: Msg, pri: Pri, t: State)
    requires Base(s) && Published(s, m, pri, t) && Lands(s, m)
    ensures Landed(s, m, pri) in All(t) && Good(t, Landed(s, m, pri))
  {
  }

  lemma PublishKeepsGood(s: State, m: Msg, pri: Pri, t: State)
    requires Base(s) && Published(s, m, pri, t)
    ensures forall y :: y in All(t) ==> Good(t, y)
  {
    hide All, Inv, Unique, Conserved;
    forall y | y in All(t) ensures Good(t, y) {
      if y in All(s) { assert Good(s, y); } else { LandedIsGood(s, m, pri, t); }
    }
  }

  lemma PublishKeepsUnique(s: State, m: Msg, pri: Pri, t: State)
    requires Base(s) && Published(s, m, pri, t)
    ensures Unique(t)
  {
    hide All, Inv, Conserved;
    forall y | y in All(t) && y in All(s) && Lands(s, m)
      ensures y.e.r.handle != Landed(s, m, pri).e.r.handle && y.e.r.data.copy != Landed(s, m, pri).e.r.data.copy
    {
      assert Good(s, y);
    }
  }

  lemma PublishKeepsIndexed(s: State, m: Msg, pri: Pri, t: State)
    requires Base(s) && Published(s, m, pri, t)
    ensures Indexed(t)
  {
    hide All, Inv, Unique, Conserved;
    forall k | k in t.table.hash ensures exists x :: x in All(t) && Points(t.table.hash[k], k, x) {
      if k == m.topic {
        LandedIsGood(s, m, pri, t);
        assert Points(t.table.hash[k], k, Landed(s, m, pri));
      } else {
        var x := HashedItem(s, k);
        assert x in All(t) && Points(t.table.hash[k], k, x);
      }
    }
  }

  /** Which addresses are listed afterwards: the hashed one goes, the landed one comes. */
  lemma ListedAfter(s: State, m: Msg, pri: Pri, t: State, k: nat)
    requires Base(s) && Published(s, m, pri, t)
    ensures HandleListed(t, k) <==>
              || (HandleListed(s, k) && !(m.topic in s.table.hash && HashedItem(s, m.topic).e.r.handle == k))
              || (Lands(s, m) && Landed(s, m, pri).e.r.handle == k)
    ensures CopyListed(t, k) <==>
              || (CopyListed(s, k) && !(m.topic in s.table.hash && HashedItem(s, m.topic).e.r.data.copy == k))
              || (Lands(s, m) && s.copies == k)
  {
    hide All, Inv, Conserved, Good;
    assert Lands(s, m) ==> Landed(s, m, pri) in All(t);
    forall x | x in All(s) && !(m.topic in s.table.hash && x == HashedItem(s, m.topic)) ensures x in All(t) {}
  }

  lemma ListedBounds(s: State)
    requires Base(s)
    ensures forall k: nat :: HandleListed(s, k) ==> k < s.routes
    ensures forall k: nat :: CopyListed(s, k) ==> k < s.copies
  {
  }

  lemma ListedItem(s: State, x: Item)
    requires x in All(s)
    ensures HandleListed(s, x.e.r.handle) && CopyListed(s, x.e.r.data.copy)
  {
  }

  lemma PublishKeepsRoutes(s: State, m: Msg, pri: Pri, t: State)
    requires Base(s) && Published(s, m, pri, t)
    ensures RoutesConserved(t)
  {
    hide All, Inv, Unique, Good, HandleListed, CopyListed, Moved, Shape, HashedItem, DataConserved, Indexed;
    ListedBounds(s);
    if m.topic in s.table.hash { ListedItem(s, HashedItem(s, m.topic)); }
    forall k: nat
      ensures t.table.freedRoutes[k] == if k < t.routes && !HandleListed(t, k) then 1 else 0
    {
      ListedAfter(s, m, pri, t, k);
    }
  }

  lemma PublishKeepsData(s: State, m: Msg, pri: Pri, t: State)
    requires Base(s) && Published(s, m, pri, t)
    ensures DataConserved(t)
  {
    hide All, Inv, Unique, Good, HandleListed, CopyListed, Moved, Shape, HashedItem, RoutesConserved, Indexed;
    ListedBounds(s);
    if m.topic in s.table.hash { ListedItem(s, HashedItem(s, m.topic)); }
    forall k: nat
      ensures t.table.freedData[k] == if k < t.copies && !CopyListed(t, k) then 1 else 0
    {
      ListedAfter(s, m, pri, t, k);
    }
  }

  lemma PublishKeepsBase(s: State, m: Msg, pri: Pri)
    requires Base(s)
    ensures Base(Publish(s, m, pri))
  {
    hide All, Inv, Unique, Indexed, RoutesConserved, DataConserved;
    var t := Publish(s, m, pri);
    PublishIsReplacement(s, m, pri);
    PublishKeepsGood(s, m, pri, t);
    PublishKeepsUnique(s, m, pri, t);
    PublishKeepsIndexed(s, m, pri, t);
    PublishKeepsRoutes(s, m, pri, t);
    PublishKeepsData(s, m, pri, t);
  }

  // ----- releasing objects: reads and client deletion -----

  /** The objects of `gone` are unlocked: they leave the lists and the hash table and are freed. */
  ghost predicate Released(s: State, t: State, gone: iset<Item>) {
    && Shape(t) && All(t) == All(s) - gone && gone <= All(s)
    && t.routes == s.routes && t.copies == s.copies
    && (forall k :: k in t.table.hash <==> k in s.table.hash && (forall x :: x in gone ==> x.e.r.topic != k))
    && (forall k :: k in t.table.hash ==> t.table.hash[k] == s.table.hash[k])
    && (forall k: nat :: t.table.freedRoutes[k] ==
          s.table.freedRoutes[k] + if exists x :: x in gone && x.e.r.handle == k then 1 else 0)
    && (forall k: nat :: t.table.freedData[k] ==
          s.table.freedData[k] + if exists x :: x in gone && x.e.r.data.copy == k then 1 else 0)
  }

  lemma ReleaseKeepsConserved(s: State, t: State, gone: iset<Item>)
    requires Base(s) && Released(s, t, gone)
    ensures Conserved(t)
  {
  }

  lemma ReleaseKeepsIndexed(s: State, t: State, gone: iset<Item>)
    requires Base(s) && Released(s, t, gone)
    ensures Indexed(t)
  {
  }

  lemma ReleaseKeepsBase(s: State, t: State, gone: iset<Item>)
    requires Base(s) && Released(s, t, gone)
    requires forall x :: x in All(t) && x.e.del ==> Needed(t.levels[x.l].cur, x.e.id)
    ensures Base(t)
  {
    hide All, Inv, Indexed, Conserved;
    ReleaseKeepsConserved(s, t, gone);
    ReleaseKeepsIndexed(s, t, gone);
    forall x | x in All(t) ensures Good(t, x) { assert Good(s, x); }
  }

  // ----- unlocking a sequence of routes -----

  ghost predicate Distinct(rs: seq<Route>) {
    forall i, j :: 0 <= i < j < |rs| ==> rs[i].handle != rs[j].handle && rs[i].data.copy != rs[j].data.copy
  }

  lemma DistinctHead(rs: seq<Route>)
    requires Distinct(rs) && rs != []
    ensures Distinct(rs[1..])
    ensures forall r :: r in rs <==> r == rs[0] || r in rs[1..]
    ensures forall r :: r in rs[1..] ==> r.handle != rs[0].handle && r.data.copy != rs[0].data.copy
  {
  }

  lemma {:induction false} UnlockAllHash(t: Table, rs: seq<Route>, k: Topic)
    requires forall r :: r in rs ==> r.refcount == 1
    ensures var u := UnlockAll(t, rs);
            && (k in u.hash <==> k in t.hash && forall r :: r in rs ==> r.topic != k)
            && (k in u.hash ==> u.hash[k] == t.hash[k])
    decreases |rs|
  {
    if rs != [] {
      assert rs == [rs[0]] + rs[1..];
      UnlockAllHash(Unlock(t, rs[0]), rs[1..], k);
    }
  }

  lemma {:induction false} UnlockAllFrees(t: Table, rs: seq<Route>, k: nat)
    requires Distinct(rs) && forall r :: r in rs ==> r.refcount == 1
    ensures var u := UnlockAll(t, rs);
            && u.freedRoutes[k] == t.freedRoutes[k] + (if exists r :: r in rs && r.handle == k then 1 else 0)
            && u.freedData[k] == t.freedData[k] + (if exists r :: r in rs && r.data.copy == k then 1 else 0)
    decreases |rs|
  {
    if rs != [] {
      DistinctHead(rs);
      UnlockAllFrees(Unlock(t, rs[0]), rs[1..], k);
    }
  }

  lemma {:induction false} UnlockAllConcat(t: Table, a: seq<Route>, b: seq<Route>)
    ensures UnlockAll(t, a + b) == UnlockAll(UnlockAll(t, a), b)
    decreases |a|
  {
    if a == [] {
      assert a + b == b;
    } else {
      assert (a + b)[1..] == a[1..] + b;
      UnlockAllConcat(Unlock(t, a[0]), a[1..], b);
    }
  }

  /** Unlocking the routes of exactly the items of `gone` releases them. */
  lemma UnlockReleases(s: State, t: State, gone: iset<Item>, rs: seq<Route>)
    requires Base(s) && Shape(t) && gone <= All(s) && All(t) == All(s) - gone
    requires t.routes == s.routes && t.copies == s.copies && t.table == UnlockAll(s.table, rs)
    requires forall r :: r in rs <==> exists x :: x in gone && x.e.r == r
    requires Distinct(rs)
    ensures Released(s, t, gone)
  {
    hide All, Inv, Shape, Indexed, Conserved, UnlockAll, Distinct;
    forall r | r in rs ensures r.refcount == 1 {
      var x :| x in gone && x.e.r == r;
      assert Good(s, x);
    }
    forall k: Topic
      ensures k in t.table.hash <==> k in s.table.hash && (forall x :: x in gone ==> x.e.r.topic != k)
      ensures k in t.table.hash ==> t.table.hash[k] == s.table.hash[k]
    {
      UnlockAllHash(s.table, rs, k);
    }
    forall k: nat
      ensures t.table.freedRoutes[k] ==
              s.table.freedRoutes[k] + if exists x :: x in gone && x.e.r.handle == k then 1 else 0
      ensures t.table.freedData[k] ==
              s.table.freedData[k] + if exists x :: x in gone && x.e.r.data.copy == k then 1 else 0
    {
      UnlockAllFrees(s.table, rs, k);
    }
  }

  // ----- reading -----

  lemma LevelReleased(s: State, t: State, l: Pri, gone: iset<Item>)
    requires Shape(s) && t.levels == s.levels[l := t.levels[l]] && Inv(t.levels[l])
    requires t.levels[l].cur.Keys == s.levels[l].cur.Keys
    requires forall e :: e in Objs(t.levels[l]) <==> e in Objs(s.levels[l]) && At(l, e) !in gone
    requires forall x :: x in gone ==> x.l == l
    ensures Shape(t) && All(t) == All(s) - gone
  {
  }

  lemma ListedAt(s: State, l: Pri, e: Entry)
    ensures At(l, e) in All(s) <==> e in Objs(s.levels[l])
  {
  }

  /** What a read from level `l` does. */
  lemma ReadReleases(s: State, l: Pri, c: ClientId)
    requires Base(s) && c in Clients(s)
    ensures var b, t := s.levels[l], Read(s, l, c);
            && c in b.cur && Inv(b) && Released(s, t, Items(l, ReadGone(b, c)))
            && t.levels == s.levels[l := t.levels[l]]
            && t.levels[l].id == b.id && t.levels[l].cur == b.cur[c := ReadId(b, c)]
  {
    hide All, Inv, Objs, Good, Unique, Indexed, Conserved, UnlockAll, NextFor, GetData, ReadGone, Released;
    var b, t := s.levels[l], Read(s, l, c);
    assert Shape(s) && c in b.cur.Keys;
    GetDataFacts(b, c);
    var gone := Items(l, ReadGone(b, c));
    forall e | e in ReadGone(b, c) ensures At(l, e) in All(s) { ListedAt(s, l, e); }
    LevelReleased(s, t, l, gone);
    assert forall e :: e in ReadGone(b, c) <==> At(l, e) in gone;
    UnlockReleases(s, t, gone, GetData(b, c).gone);
  }

  lemma ReadKeepsBase(s: State, l: Pri, c: ClientId)
    requires Base(s) && c in Clients(s)
    ensures Base(Read(s, l, c))
  {
    hide All, Inv, Objs, Unique, Indexed, Conserved, ReadGone, Read, Needed;
    var t, b := Read(s, l, c), s.levels[l];
    ReadReleases(s, l, c);
    forall x | x in All(t) && x.e.del ensures Needed(t.levels[x.l].cur, x.e.id) {
      assert Good(s, x);
      if x.l == l {
        ListedAt(s, l, x.e);
        GetDataKeepsNeeded(b, c, x.e);
      }
    }
    ReleaseKeepsBase(s, t, Items(l, ReadGone(b, c)));
  }

  // ----- clients come and go -----

  lemma SameListingKeepsBase(s: State, t: State)
    requires Base(s) && All(t) == All(s) && t.table == s.table && t.routes == s.routes && t.copies == s.copies
    requires Shape(t) && forall x :: x in All(t) ==> Good(t, x)
    ensures Base(t)
  {
  }

  lemma ClientCreateKeepsBase(s: State, c: ClientId)
    requires Base(s) && c !in Clients(s)
    ensures var t := ClientCreateAll(s, c);
            && Base(t) && All(t) == All(s) && Clients(t) == Clients(s) + {c} && t.table == s.table
    ensures forall l: Pri ::
              && c in ClientCreateAll(s, c).levels[l].cur
              && Pending(ClientCreateAll(s, c).levels[l], c) == Objs(s.levels[l])
              && (Behind(ClientCreateAll(s, c), l, c) <==> Objs(s.levels[l]) != {})
              && ClientCreateAll(s, c).levels[l] == ClientCreate(s.levels[l], c)
  {
    hide Inv, Objs, HasObj, Unique, Indexed, HandleListed, CopyListed;
    var t := ClientCreateAll(s, c);
    forall l: Pri
      ensures t.levels[l] == ClientCreate(s.levels[l], c) && Inv(t.levels[l]) && Objs(t.levels[l]) == Objs(s.levels[l])
      ensures Pending(t.levels[l], c) == Objs(s.levels[l]) && (Behind(t, l, c) <==> Objs(s.levels[l]) != {})
    {
      assert c !in s.levels[l].cur.Keys;
      ClientCreateFacts(s.levels[l], c);
    }
    forall x ensures x in All(t) <==> x in All(s) {}
    assert All(t) == All(s);
    forall x | x in All(t) ensures Good(t, x) {
      assert Good(s, x);
      if x.e.del {
        var d :| d in s.levels[x.l].cur && s.levels[x.l].cur[d] < x.e.id;
        assert d in t.levels[x.l].cur && t.levels[x.l].cur[d] < x.e.id;
      }
    }
    SameListingKeepsBase(s, t);
  }

  /** The objects that only client `c` was still to read. */
  ghost function Orphans(s: State, c: ClientId): iset<Item> {
    iset x | x in All(s) && !Keep(s.levels[x.l].cur - {c}, x.e)
  }

  lemma ClientDeleteLevels(s: State, c: ClientId)
    requires Base(s) && c in Clients(s)
    ensures var t := ClientDeleteAll(s, c);
            && Shape(t) && All(t) == All(s) - Orphans(s, c)
            && (forall l: Pri :: t.levels[l].cur == s.levels[l].cur - {c} && t.levels[l].id == s.levels[l].id)
  {
    hide Inv, Objs, UnlockAll, ClientDelete, Unique, Indexed, Conserved;
    var t := ClientDeleteAll(s, c);
    forall l: Pri
      ensures Inv(t.levels[l]) && t.levels[l].cur == s.levels[l].cur - {c} && t.levels[l].id == s.levels[l].id
      ensures Objs(t.levels[l]) == (set e | e in Objs(s.levels[l]) && Keep(s.levels[l].cur - {c}, e))
    {
      assert c in s.levels[l].cur.Keys;
      assert t.levels[l] == ClientDelete(s.levels[l], c).b;
      ClientDeleteFacts(s.levels[l], c);
    }
    assert All(t) == All(s) - Orphans(s, c);
  }

  lemma ReapedRoutes(s: State, c: ClientId, l: Pri)
    requires Base(s) && c in Clients(s)
    ensures var g := ClientDelete(s.levels[l], c).gone;
            && (forall r :: r in g <==> exists x :: x in Orphans(s, c) && x.l == l && x.e.r == r)
            && (forall r :: r in g ==> r.pri == l)
            && (forall i, j :: 0 <= i < j < |g| ==> g[i] != g[j])
  {
    hide Inv, Objs, ClientDelete, Unique, Indexed, Conserved, Keep;
    var b := s.levels[l];
    assert c in b.cur.Keys;
    ClientDeleteFacts(b, c);
    forall e ensures e in Objs(b) && !Keep(b.cur - {c}, e) <==> At(l, e) in Orphans(s, c) { ListedAt(s, l, e); }
    forall x | x in Orphans(s, c) && x.l == l ensures x.e.r.pri == l { assert Good(s, x); }
  }

  /** Routes of listed items that differ at all differ in address and in payload copy. */
  lemma ListedRoutesDistinct(s: State, rs: seq<Route>)
    requires Unique(s)
    requires forall r :: r in rs ==> exists x :: x in All(s) && x.e.r == r
    requires forall i, j :: 0 <= i < j < |rs| ==> rs[i] != rs[j]
    ensures Distinct(rs)
  {
    hide All;
    forall i, j | 0 <= i < j < |rs| ensures rs[i].handle != rs[j].handle && rs[i].data.copy != rs[j].data.copy {
      assert rs[i] in rs && rs[j] in rs;
      var x :| x in All(s) && x.e.r == rs[i];
      var y :| y in All(s) && y.e.r == rs[j];
    }
  }

  lemma ClientDeleteReleases(s: State, c: ClientId)
    requires Base(s) && c in Clients(s)
    ensures Released(s, ClientDeleteAll(s, c), Orphans(s, c))
  {
    hide All, Inv, Objs, UnlockAll, ClientDelete, Indexed, Conserved, Shape, Keep, Released, Unique, Good, Distinct;
    var t, gone := ClientDeleteAll(s, c), Orphans(s, c);
    ClientDeleteLevels(s, c);
    ReapedRoutes(s, c, 0);
    ReapedRoutes(s, c, 1);
    ReapedRoutes(s, c, 2);
    var g0, g1 := ClientDelete(s.levels[0], c).gone, ClientDelete(s.levels[1], c).gone;
    var g2 := ClientDelete(s.levels[2], c).gone;
    UnlockAllConcat(s.table, g0, g1);
    UnlockAllConcat(s.table, g0 + g1, g2);
    var rs := g0 + g1 + g2;
    assert forall r :: r in rs <==> r in g0 || r in g1 || r in g2;
    assert forall x :: x in gone ==> x.l == 0 || x.l == 1 || x.l == 2;
    ListedRoutesDistinct(s, rs);
    UnlockReleases(s, t, gone, rs);
  }

  lemma ClientDeleteKeepsBase(s: State, c: ClientId)
    requires Base(s) && c in Clients(s)
    ensures Base(ClientDeleteAll(s, c))
  {
    hide All, Inv, Unique, Indexed, Conserved, ClientDeleteAll, Needed;
    ClientDeleteLevels(s, c);
    ClientDeleteReleases(s, c);
    ReleaseKeepsBase(s, ClientDeleteAll(s, c), Orphans(s, c));
  }
}
