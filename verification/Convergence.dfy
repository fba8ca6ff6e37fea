/**
 Convergence: a client with nothing left to read holds exactly the routes that
 everything published adds up to.

 The promoted delete leaves a tombstone that the hash table does not know.  The
 law holds of a run if no route is added while such a tombstone of its topic is
 still listed (`Obeys`); `Necessity.dfy` shows that nothing less will do.
 */
module Convergence {
  import opened Options
  import opened Broker
  import opened Routes
  import opened RouteInvariants
  import opened Runs

  // ----- the hypothesis on runs -----

  ghost predicate HashedBy(s: State, x: Item)
    requires x.e.Obj?
  {
    x.e.r.topic in s.table.hash && Points(s.table.hash[x.e.r.topic], x.e.r.topic, x)
  }

  /** A tombstone of topic `t` is listed that the hash table does not know. */
  ghost predicate StrayFor(s: State, t: Topic) {
    exists x :: x in All(s) && x.e.r.topic == t && x.e.del && !HashedBy(s, x)
  }

  ghost predicate Obeys(s: Sys, e: Event) {
    e.Pub? && e.i.Accept? && !e.i.m.del ==> !StrayFor(s.st, e.i.m.topic)
  }

  ghost predicate AllObey(s: Sys, es: seq<Event>)
    requires Legal(s, es)
    decreases |es|
  {
    es != [] ==> Obeys(s, es[0]) && AllObey(Step(s, es[0]), es[1..])
  }

  // ----- what is kept under the hypothesis -----

  ghost predicate OnePerTopic(s: State) {
    forall x, y :: x in All(s) && y in All(s) && x.e.r.topic == y.e.r.topic ==> x == y
  }

  ghost predicate LiveHashed(s: State) {
    forall x :: x in All(s) && !x.e.del ==> HashedBy(s, x)
  }

  /** The live objects are the authoritative routes. */
  ghost predicate Faithful(s: State, a: Rib) {
    && (forall x :: x in All(s) && x.e.del ==> x.e.r.topic !in a)
    && (forall x :: x in All(s) && !x.e.del ==> x.e.r.topic in a && a[x.e.r.topic] == x.e.r.data.msg.body)
    && (forall t :: t in a ==> exists x :: x in All(s) && x.e.r.topic == t)
  }

  ghost predicate Seen(s: State, c: ClientId, x: Item)
    requires x in All(s)
  {
    c in s.levels[x.l].cur && x.e.id <= s.levels[x.l].cur[c]
  }

  ghost predicate AllSeen(s: State, c: ClientId, t: Topic) {
    forall x :: x in All(s) && x.e.r.topic == t ==> Seen(s, c, x)
  }

  predicate Same(r: Rib, a: Rib, t: Topic) {
    (t in r <==> t in a) && (t in a && t in r ==> r[t] == a[t])
  }

  /** Where a client has nothing of a topic to read, it is right about it. */
  ghost predicate Converging(s: State, c: ClientId, r: Rib, a: Rib) {
    forall t :: AllSeen(s, c, t) ==> Same(r, a, t)
  }

  ghost predicate Agreed(s: Sys) {
    && OnePerTopic(s.st) && LiveHashed(s.st) && Faithful(s.st, Authority(s))
    && (forall c :: c in s.got ==> Converging(s.st, c, Replica(s, c), Authority(s)))
  }

  // ----- publishing -----

  lemma FoldAppend(ms: seq<Msg>, m: Msg)
    ensures Fold(ms + [m]) == Update(Fold(ms), m)
  {
  }

  /** Under the hypothesis the topic has no object left but the one that lands. */
  lemma OnlyLanded(s: State, m: Msg, pri: Pri, t: State)
    requires Base(s) && Published(s, m, pri, t) && OnePerTopic(s) && LiveHashed(s)
    requires !m.del ==> !StrayFor(s, m.topic)
    ensures forall y :: y in All(t) && y.e.r.topic == m.topic ==>
              if Lands(s, m) then y == Landed(s, m, pri) else y in All(s) && y.e.del
  {
    hide All, Inv, Unique, Conserved, Good;
  }

  lemma OthersStay(s: State, m: Msg, pri: Pri, t: State)
    requires Base(s) && Published(s, m, pri, t)
    ensures forall y :: y in All(t) && y.e.r.topic != m.topic ==> y in All(s)
    ensures forall y :: y in All(s) && y.e.r.topic != m.topic ==> y in All(t)
    ensures m.topic !in s.table.hash ==> forall y :: y in All(s) ==> y in All(t)
  {
    hide All, Inv, Unique, Conserved;
    if !Fresh(s, m.topic, pri) { assert Good(s, HashedItem(s, m.topic)); }
  }

  lemma PublishLiveHashed(s: State, m: Msg, pri: Pri, t: State)
    requires Base(s) && Published(s, m, pri, t) && OnePerTopic(s) && LiveHashed(s)
    requires !m.del ==> !StrayFor(s, m.topic)
    ensures OnePerTopic(t) && LiveHashed(t)
  {
    hide All, Inv, Unique, Conserved, Shape, StrayFor;
    OnlyLanded(s, m, pri, t);
    OthersStay(s, m, pri, t);
    if Lands(s, m) { LandedIsGood(s, m, pri, t); }
    forall y | y in All(t) && !y.e.del ensures HashedBy(t, y) {
      if y.e.r.topic != m.topic { assert HashedBy(s, y); }
    }
  }

  lemma LandedTopic(s: State, m: Msg, pri: Pri)
    requires Base(s)
    ensures Landed(s, m, pri).e.r.topic == m.topic
  {
    hide All, Inv, Unique, Conserved, Good, Shape;
  }

  lemma ListedIsFaithful(s: State, m: Msg, pri: Pri, t: State, a: Rib, x: Item)
    requires Base(s) && Published(s, m, pri, t) && OnePerTopic(s) && LiveHashed(s) && Faithful(s, a)
    requires (!m.del ==> !StrayFor(s, m.topic)) && x in All(t)
    ensures var k, b := x.e.r.topic, Update(a, m); if x.e.del then k !in b else k in b && b[k] == x.e.r.data.msg.body
  {
    hide All, Inv, Unique, Conserved, Shape, StrayFor, OnePerTopic, LiveHashed, HashedItem, TableAfter, Moved, Good;
    if x.e.r.topic == m.topic { OnlyLanded(s, m, pri, t); } else { OthersStay(s, m, pri, t); }
  }

  lemma PublishFaithful(s: State, m: Msg, pri: Pri, t: State, a: Rib)
    requires Base(s) && Published(s, m, pri, t) && OnePerTopic(s) && LiveHashed(s) && Faithful(s, a)
    requires !m.del ==> !StrayFor(s, m.topic)
    ensures Faithful(t, Update(a, m))
  {
    hide All, Base, StrayFor, OnePerTopic, LiveHashed, Published, Landed;
    forall x | x in All(t) && x.e.del ensures x.e.r.topic !in Update(a, m) { ListedIsFaithful(s, m, pri, t, a, x); }
    forall x | x in All(t) && !x.e.del
      ensures x.e.r.topic in Update(a, m) && Update(a, m)[x.e.r.topic] == x.e.r.data.msg.body
    {
      ListedIsFaithful(s, m, pri, t, a, x);
    }
    forall k | k in Update(a, m) ensures exists x :: x in All(t) && x.e.r.topic == k {
      if k == m.topic {
        LandedIsGood(s, m, pri, t);
        LandedTopic(s, m, pri);
      } else {
        var x :| x in All(s) && x.e.r.topic == k;
        OthersStay(s, m, pri, t);
      }
    }
  }

  /** What lands is new to every client. */
  lemma LandedUnseen(s: State, m: Msg, pri: Pri, t: State, c: ClientId)
    requires Base(s) && Published(s, m, pri, t) && Lands(s, m) && c in Clients(s)
    ensures !AllSeen(t, c, m.topic)
  {
    hide All, Unique, Conserved, Cut, Objs;
    var n := Landed(s, m, pri);
    LandedIsGood(s, m, pri, t);
    assert Inv(s.levels[n.l]) && c in s.levels[n.l].cur.Keys;
    assert !Seen(t, c, n) && n.e.r.topic == m.topic;
  }

  lemma UnknownIsAbsent(s: State, m: Msg, a: Rib, c: ClientId)
    requires Base(s) && LiveHashed(s) && Faithful(s, a) && !Lands(s, m) && c in Clients(s)
    ensures m.topic !in s.table.hash && m.topic !in a
  {
  }

  lemma PublishConverges(s: State, m: Msg, pri: Pri, t: State, a: Rib, c: ClientId, r: Rib)
    requires Base(s) && Published(s, m, pri, t) && LiveHashed(s) && Faithful(s, a)
    requires c in Clients(s) && Converging(s, c, r, a)
    ensures Converging(t, c, r, Update(a, m))
  {
    hide All, Unique, Conserved, Good, Inv, Objs, HashedBy, LiveHashed, Faithful, Landed, Leaves;
    OthersStay(s, m, pri, t);
    if Lands(s, m) { LandedUnseen(s, m, pri, t, c); } else { UnknownIsAbsent(s, m, a, c); }
    forall k | AllSeen(t, c, k) ensures Same(r, Update(a, m), k) {
      if !(k == m.topic && Lands(s, m)) {
        forall x | x in All(s) && x.e.r.topic == k ensures Seen(s, c, x) { assert x in All(t) && Seen(t, c, x); }
        assert AllSeen(s, c, k);
      }
    }
  }

  lemma BaseParts(s: State)
    requires Base(s)
    ensures Indexed(s) && Shape(s)
  {
  }

  lemma PubAgrees(s: Sys, m: Msg, pri: Pri)
    requires Sound(s) && Agreed(s) && Obeys(s, Pub(Accept(m), pri))
    ensures Agreed(Step(s, Pub(Accept(m), pri)))
  {
    hide All, Base, Publish, LogOk, OnePerTopic, LiveHashed, Faithful, Converging, StrayFor, Fold;
    var st, a := Publish(s.st, m, pri), Authority(s);
    assert Indexed(s.st) by { BaseParts(s.st); }
    PublishIsReplacement(s.st, m, pri);
    FoldAppend(s.accepted, m);
    PublishLiveHashed(s.st, m, pri, st);
    PublishFaithful(s.st, m, pri, st, a);
    forall c | c in s.got ensures Converging(st, c, Replica(s, c), Update(a, m)) {
      PublishConverges(s.st, m, pri, st, a, c, Replica(s, c));
    }
  }

  // ----- reading and leaving -----

  lemma ReleaseAgrees(s: State, t: State, gone: iset<Item>, a: Rib)
    requires Base(s) && Released(s, t, gone) && OnePerTopic(s) && LiveHashed(s) && Faithful(s, a)
    requires forall x :: x in gone ==> x.e.del
    ensures OnePerTopic(t) && LiveHashed(t) && Faithful(t, a)
  {
    hide All, Inv, Unique, Conserved, Good, Indexed, Shape;
    forall x | x in All(t) && !x.e.del ensures HashedBy(t, x) {
      assert HashedBy(s, x);
      forall y | y in gone ensures y.e.r.topic != x.e.r.topic { assert y in All(s); }
    }
    forall k | k in a ensures exists x :: x in All(t) && x.e.r.topic == k {
      var x :| x in All(s) && x.e.r.topic == k;
      assert x !in gone;
    }
  }

  /** A client keeps converging if what it had not seen, it still has not seen. */
  lemma StillConverging(s: State, t: State, c: ClientId, r: Rib, a: Rib, gone: iset<Item>)
    requires Converging(s, c, r, a) && All(t) == All(s) - gone
    requires forall x :: x in gone ==> x in All(s) && Seen(s, c, x)
    requires forall x :: x in All(t) && x in All(s) && Seen(t, c, x) ==> Seen(s, c, x)
    ensures Converging(t, c, r, a)
  {
  }

  lemma LeaveAgrees(s: Sys, c: ClientId)
    requires Sound(s) && Agreed(s) && Enabled(s, Leave(c))
    ensures Agreed(Step(s, Leave(c)))
  {
    hide All, Inv, Unique, Indexed, Conserved, Good, ClientDeleteAll, LogOk, OnePerTopic, LiveHashed, Faithful;
    hide Converging, Fold, Released;
    var t, gone := ClientDeleteAll(s.st, c), Orphans(s.st, c);
    ClientDeleteLevels(s.st, c);
    ClientDeleteReleases(s.st, c);
    ReleaseAgrees(s.st, t, gone, Authority(s));
    forall d | d in s.got && d != c ensures Converging(t, d, Replica(s, d), Authority(s)) {
      forall x | x in gone ensures x in All(s.st) && Seen(s.st, d, x) {
        assert d in s.st.levels[x.l].cur.Keys && d in s.st.levels[x.l].cur - {c};
      }
      StillConverging(s.st, t, d, Replica(s, d), Authority(s), gone);
    }
  }

  lemma OthersUnmoved(s: State, c: ClientId, d: ClientId)
    requires Base(s) && c !in Clients(s) && d in Clients(s)
    ensures forall x :: x in All(s) && x in All(ClientCreateAll(s, c)) && Seen(ClientCreateAll(s, c), d, x) ==> Seen(s, d, x)
  {
    hide Inv, Unique, Indexed, Conserved, Good, HasObj;
    forall l: Pri ensures d in s.levels[l].cur { assert d in s.levels[l].cur.Keys; }
    ClientCreateKeepsBase(s, c);
  }

  /** To a client that joins, every object is new. */
  lemma JoinedConverges(s: State, c: ClientId, a: Rib)
    requires Base(s) && c !in Clients(s) && Faithful(s, a)
    ensures Converging(ClientCreateAll(s, c), c, map[], a)
  {
    hide Inv, Unique, Indexed, Conserved, Good, HasObj, ClientCreate;
    var t := ClientCreateAll(s, c);
    ClientCreateKeepsBase(s, c);
    forall x | x in All(t) ensures !Seen(t, c, x) { assert x.e in Pending(t.levels[x.l], c); }
    assert forall k :: AllSeen(t, c, k) ==> k !in a;
  }

  lemma JoinAgrees(s: Sys, c: ClientId)
    requires Sound(s) && Agreed(s) && Enabled(s, Join(c))
    ensures Agreed(Step(s, Join(c)))
  {
    hide Inv, Objs, Unique, Indexed, Conserved, Good, ClientCreateAll, LogOk, Base, ClientCreate;
    ClientCreateKeepsBase(s.st, c);
    var t := ClientCreateAll(s.st, c);
    var a := Authority(s);
    assert OnePerTopic(t) && LiveHashed(t) && Faithful(t, a);
    JoinedConverges(s.st, c, a);
    forall d | d in s.got ensures Converging(t, d, Replica(s, d), a) {
      OthersUnmoved(s.st, c, d);
      StillConverging(s.st, t, d, Replica(s, d), a, iset{});
    }
    assert Msgs([]) == [];
  }

  // ----- reading -----

  /** Of what a read leaves unread or releases, nothing is hidden from a client. */
  lemma ReadSeen(s: State, l: Pri, c: ClientId, d: ClientId)
    requires Base(s) && c in Clients(s) && d in Clients(s)
    ensures var t, b := Read(s, l, c), s.levels[l];
            && (forall x :: x in Items(l, ReadGone(b, c)) ==> x in All(s) && x.e.del && (d != c ==> Seen(s, d, x)))
            && (forall x :: x in All(s) && x in All(t) && Seen(t, d, x) ==>
                  Seen(s, d, x) || (d == c && NextFor(b, c) < |b.list| && x == At(l, b.list[NextFor(b, c)])))
  {
    hide Inv, Unique, Indexed, Conserved, Good, NextFor, Read, Released, All;
    var t, b := Read(s, l, c), s.levels[l];
    ReadReleases(s, l, c);
    ReadCursors(s, l, c);
    NextForIsLeastPending(b, c);
    GetDataFacts(b, c);
    forall x | x in Items(l, ReadGone(b, c)) ensures x in All(s) && x.e.del && (d != c ==> Seen(s, d, x)) {
      ListedAt(s, l, x.e);
      assert !Needed(b.cur[c := ReadId(b, c)], x.e.id);
      assert d != c ==> d in b.cur[c := ReadId(b, c)];
    }
    forall x | x in All(s) && x in All(t) && Seen(t, d, x) && !Seen(s, d, x)
      ensures d == c && NextFor(b, c) < |b.list| && x == At(l, b.list[NextFor(b, c)])
    {
      ListedAt(s, l, x.e);
      assert x.l == l && x.e in Pending(b, c);
      var o := b.list[NextFor(b, c)];
      ListedAt(s, l, o);
      IdsDistinct(b, o, x.e);
    }
  }

  lemma NothingGone(b: Broker, c: ClientId)
    requires NextFor(b, c) == |b.list|
    ensures ReadGone(b, c) == {}
  {
  }

  lemma OnlyNextGoes(b: Broker, c: ClientId, e: Entry)
    requires NextFor(b, c) < |b.list| && e != b.list[NextFor(b, c)]
    ensures e !in ReadGone(b, c)
  {
  }

  lemma NextListed(s: State, l: Pri, c: ClientId)
    requires NextFor(s.levels[l], c) < |s.levels[l].list|
    ensures At(l, s.levels[l].list[NextFor(s.levels[l], c)]) in All(s)
  {
  }

  /** The reader is right about the topic it was just given. */
  lemma DeliveredConverges(s: State, l: Pri, c: ClientId, r: Rib, a: Rib)
    requires Base(s) && c in Clients(s) && Faithful(s, a) && Converging(s, c, r, a)
    ensures match Next(s, l, c)
            case None => Converging(Read(s, l, c), c, r, a)
            case Some(got) => Converging(Read(s, l, c), c, Update(r, got.msg), a)
  {
    hide Inv, Objs, Unique, Indexed, Conserved, NextFor, Read, All, Seen, Shape, ReadGone;
    var t, b := Read(s, l, c), s.levels[l];
    ReadReleases(s, l, c);
    ReadSeen(s, l, c, c);
    var j := NextFor(b, c);
    if j == |b.list| {
      assert ReadGone(b, c) == {} by { NothingGone(b, c); }
      StillConverging(s, t, c, r, a, Items(l, {}));
    } else {
      var o := b.list[j];
      assert At(l, o) in All(s) by { hide *; NextListed(s, l, c); }
      assert Good(s, At(l, o));
      forall k | AllSeen(t, c, k) ensures Same(Update(r, o.r.data.msg), a, k) {
        if k != o.r.topic {
          forall x | x in All(s) && x.e.r.topic == k ensures Seen(s, c, x) {
            OnlyNextGoes(b, c, x.e);
            assert x in All(t) && Seen(t, c, x);
          }
          assert AllSeen(s, c, k);
        }
      }
    }
  }

  lemma ReleasedListing(s: State, t: State, gone: iset<Item>)
    requires Released(s, t, gone)
    ensures All(t) == All(s) - gone
  {
  }

  lemma ReplicaAfter(s: Sys, c: ClientId, l: Pri)
    requires c in s.got && l == Available(s.st, c)
    ensures Replica(GetStep(s, c), c) ==
            match Next(s.st, l, c)
            case None => Replica(s, c)
            case Some(got) => Update(Replica(s, c), got.msg)
  {
    var gs := s.got[c];
    match Next(s.st, l, c)
    case None => assert gs + [] == gs;
    case Some(got) =>
      assert Msgs(gs + [got]) == Msgs(gs) + [got.msg];
      FoldAppend(Msgs(gs), got.msg);
  }

  lemma GetAgrees(s: Sys, c: ClientId)
    requires Sound(s) && Agreed(s) && Enabled(s, Get(c))
    ensures Agreed(Step(s, Get(c)))
  {
    hide Base, LogOk, OnePerTopic, LiveHashed, Faithful, Converging, Fold, Released, All, Seen, Read, ReadGone;
    var l := Available(s.st, c);
    if l < LEVELS {
      var t, a, b := Read(s.st, l, c), Authority(s), s.st.levels[l];
      var gone := Items(l, ReadGone(b, c));
      ReadReleases(s.st, l, c);
      ReadSeen(s.st, l, c, c);
      ReleaseAgrees(s.st, t, gone, a);
      forall d | d in s.got && d != c ensures Converging(t, d, Replica(s, d), a) {
        ReadSeen(s.st, l, c, d);
        assert All(t) == All(s.st) - gone by { ReleasedListing(s.st, t, gone); }
        StillConverging(s.st, t, d, Replica(s, d), a, gone);
      }
      DeliveredConverges(s.st, l, c, Replica(s, c), a);
      ReplicaAfter(s, c, l);
    }
  }

  // ----- runs -----

  lemma DiscardAgrees(s: Sys, copied: bool)
    requires Sound(s) && Agreed(s)
    ensures Agreed(s.(st := Discard(s.st, copied)))
  {
    hide Base, LogOk, Fold;
    AllSame(s.st, Discard(s.st, copied));
    forall c | c in s.got ensures Converging(Discard(s.st, copied), c, Replica(s, c), Authority(s)) {
      StillConverging(s.st, Discard(s.st, copied), c, Replica(s, c), Authority(s), iset{});
    }
  }

  lemma SameAgreed(s: Sys, t: Sys)
    requires Agreed(s) && t == s.(waiting := t.waiting)
    ensures Agreed(t)
  {
  }

  lemma StepAgrees(s: Sys, e: Event)
    requires Sound(s) && Agreed(s) && Enabled(s, e) && Obeys(s, e)
    ensures Agreed(Step(s, e))
  {
    hide Sound, Agreed;
    match e
    case Pub(NoRoute, _) =>
    case Pub(NoCopy, _) => DiscardAgrees(s, false);
    case Pub(NoTopic, _) => DiscardAgrees(s, true);
    case Pub(Accept(m), pri) => PubAgrees(s, m, pri);
    case Join(c) => JoinAgrees(s, c);
    case Leave(c) => LeaveAgrees(s, c);
    case Get(c) => GetAgrees(s, c);
    case Wake(c) => SameAgreed(s, Step(s, e));
  }

  lemma {:induction false} RunAgrees(s: Sys, es: seq<Event>)
    requires Sound(s) && Agreed(s) && Legal(s, es) && AllObey(s, es)
    ensures Sound(Run(s, es)) && Agreed(Run(s, es))
    decreases |es|
  {
    hide Sound, Agreed, Step, Obeys;
    if es != [] {
      StepIsSound(s, es[0]);
      StepAgrees(s, es[0]);
      RunAgrees(Step(s, es[0]), es[1..]);
    }
  }

  /** Each drained client holds the authoritative routes. */
  ghost predicate Converged(s: Sys) {
    forall c :: c in s.got && Drained(s.st, c) ==> Replica(s, c) == Authority(s)
  }

  lemma SameEverywhere(r: Rib, a: Rib)
    requires forall t: Topic :: Same(r, a, t)
    ensures r == a
  {
    forall t: Topic ensures (t in r <==> t in a) && (t in a ==> r[t] == a[t]) { assert Same(r, a, t); }
  }

  lemma AgreedConverges(s: Sys)
    requires Sound(s) && Agreed(s)
    ensures Converged(s)
  {
    hide Base, LogOk, Fold, OnePerTopic, LiveHashed, Faithful;
    forall c | c in s.got && Drained(s.st, c) ensures Replica(s, c) == Authority(s) {
      forall t: Topic ensures Same(Replica(s, c), Authority(s), t) {
        forall x | x in All(s.st) && x.e.r.topic == t ensures Seen(s.st, c, x) {
          assert x.e !in Pending(s.st.levels[x.l], c);
        }
        assert AllSeen(s.st, c, t);
      }
      SameEverywhere(Replica(s, c), Authority(s));
    }
  }

  lemma StartAgrees()
    ensures Agreed(START)
  {
  }

  /** Convergence, over every run that obeys the hypothesis, for early and late clients alike. */
  lemma Convergence(es: seq<Event>)
    requires Legal(START, es) && AllObey(START, es)
    ensures Converged(Run(START, es))
  {
    hide Sound, Agreed, Converged, Legal, AllObey;
    StartIsSound();
    StartAgrees();
    RunAgrees(START, es);
    AgreedConverges(Run(START, es));
  }

  /** The step form: an event that obeys takes an agreed state to one that has converged again. */
  lemma StepConverges(s: Sys, e: Event)
    requires Reachable(s) && Agreed(s) && Enabled(s, e) && Obeys(s, e)
    ensures Agreed(Step(s, e)) && Converged(Step(s, e))
  {
    hide Reachable, Sound, Agreed, Converged, Step, Enabled, Obeys;
    ReachableIsSound(s);
    StepIsSound(s, e);
    StepAgrees(s, e);
    AgreedConverges(Step(s, e));
  }

  /**
   A topic has at most one object at all the levels together, the hash table
   knows exactly where it is, and what the table does not know is a tombstone.
   */
  ghost predicate IndexIsExact(s: State) {
    && OnePerTopic(s)
    && (forall t :: t in s.table.hash ==> exists x :: x in All(s) && Points(s.table.hash[t], t, x))
    && (forall x :: x in All(s) && x.e.r.topic in s.table.hash ==> HashedBy(s, x))
    && (forall x :: x in All(s) && x.e.r.topic !in s.table.hash ==> x.e.del)
  }

  lemma AgreedIndexes(s: Sys)
    requires Sound(s) && Agreed(s)
    ensures IndexIsExact(s.st)
  {
    hide All, Inv, Unique, Conserved, Good, LogOk, Fold, Converging, Faithful;
  }

  /** Index agreement, over the same runs. */
  lemma IndexAgreement(es: seq<Event>)
    requires Legal(START, es) && AllObey(START, es)
    ensures IndexIsExact(Run(START, es).st)
  {
    hide Sound, Agreed, IndexIsExact, Legal, AllObey;
    StartIsSound();
    StartAgrees();
    RunAgrees(START, es);
    AgreedIndexes(Run(START, es));
  }
}
