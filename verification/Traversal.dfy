/**
 The order in which route_broker_seq_first and route_broker_seq_next visit the
 entries: the levels by priority, each from its newest entry to its oldest.
 */
module Traversal {
  import opened Broker
  import opened Routes
  import opened Runs

  /** An entry by level and address. */
  datatype Stop = Stop(l: nat, k: Key)

  /** The first `n` entries of a list, last first. */
  function Back(l: nat, list: seq<Entry>, n: nat): seq<Stop>
    requires n <= |list|
  {
    if n == 0 then [] else [Stop(l, KeyOf(list[n - 1]))] + Back(l, list, n - 1)
  }

  /** From level `l` on; an empty level ends the tour. */
  function Tour(s: State, l: nat): seq<Stop>
    requires l <= LEVELS
    decreases LEVELS - l
  {
    if l == LEVELS || s.levels[l].list == [] then []
    else Back(l, s.levels[l].list, |s.levels[l].list|) + Tour(s, l + 1)
  }

  predicate Holds(s: State, x: Stop) {
    x.l < LEVELS && exists e :: e in s.levels[x.l].list && KeyOf(e) == x.k
  }

  /** No level from `l` up to that of `x` is empty. */
  predicate Open(s: State, l: nat, x: Stop) {
    x.l < LEVELS && forall m :: l <= m <= x.l ==> s.levels[m].list != []
  }

  /** `x` has the higher priority, or is newer than `y` at the same one. */
  predicate Precedes(s: State, x: Stop, y: Stop) {
    && x.l < LEVELS && y.l < LEVELS
    && (x.l < y.l || (x.l == y.l && Find(s.levels[x.l].list, x.k) > Find(s.levels[x.l].list, y.k)))
  }

  predicate InOrder(s: State, xs: seq<Stop>) {
    forall i, j :: 0 <= i < j < |xs| ==> Precedes(s, xs[i], xs[j])
  }

  lemma PositionOf(b: Broker, i: nat)
    requires Inv(b) && i < |b.list|
    ensures Find(b.list, KeyOf(b.list[i])) == i
  {
  }

  lemma {:induction false} BackVisits(l: nat, list: seq<Entry>, n: nat, cur: map<ClientId, nat>)
    requires n <= |list| && Cut(list, cur)
    ensures |Back(l, list, n)| == n
    ensures forall i :: 0 <= i < n ==> Back(l, list, n)[i] == Stop(l, KeyOf(list[n - 1 - i]))
    ensures forall i, j :: 0 <= i < j < n ==> Back(l, list, n)[i] != Back(l, list, n)[j]
  {
    if n > 0 {
      BackVisits(l, list, n - 1, cur);
      var b := Back(l, list, n);
      forall i, j | 0 <= i < j < n ensures b[i] != b[j] {
        CutPair(list, cur, n - 1 - j, n - 1 - i);
      }
    }
  }

  lemma LevelVisits(s: State, l: Pri)
    requires Shape(s)
    ensures var b := Back(l, s.levels[l].list, |s.levels[l].list|);
            && (forall x :: x in b <==> Holds(s, x) && x.l == l)
            && (forall i, j :: 0 <= i < j < |b| ==> b[i] != b[j])
            && InOrder(s, b)
  {
    hide Inv, Clients, Back, Find;
    var list := s.levels[l].list;
    CutOf(s.levels[l]);
    BackVisits(l, list, |list|, s.levels[l].cur);
    var b := Back(l, list, |list|);
    forall x | Holds(s, x) && x.l == l ensures x in b {
      var e :| e in list && KeyOf(e) == x.k;
      var i :| 0 <= i < |list| && list[i] == e;
      assert b[|list| - 1 - i] == x;
    }
    forall x | x in b ensures Holds(s, x) && x.l == l {
      var i :| 0 <= i < |b| && b[i] == x;
      assert list[|list| - 1 - i] in list;
    }
    forall i, j | 0 <= i < j < |b| ensures Precedes(s, b[i], b[j]) {
      PositionOf(s.levels[l], |list| - 1 - i);
      PositionOf(s.levels[l], |list| - 1 - j);
    }
  }

  /** What the tour visits, and that it visits nothing twice. */
  lemma {:induction false} TourVisits(s: State, l: nat)
    requires Shape(s) && l <= LEVELS
    ensures forall x :: x in Tour(s, l) <==> Holds(s, x) && l <= x.l && Open(s, l, x)
    ensures forall i, j :: 0 <= i < j < |Tour(s, l)| ==> Tour(s, l)[i] != Tour(s, l)[j]
    decreases LEVELS - l
  {
    hide Shape, Back, Holds;
    if l < LEVELS && s.levels[l].list != [] {
      TourVisits(s, l + 1);
      LevelVisits(s, l);
    }
  }

  /** The tour goes by priority, and at each priority from the newest entry to the oldest. */
  lemma {:induction false} TourInOrder(s: State, l: nat)
    requires Shape(s) && l <= LEVELS
    ensures InOrder(s, Tour(s, l))
    decreases LEVELS - l
  {
    hide Shape, Back, Find;
    if l < LEVELS && s.levels[l].list != [] {
      TourInOrder(s, l + 1);
      LevelVisits(s, l);
      TourVisits(s, l + 1);
      var b, rest := Back(l, s.levels[l].list, |s.levels[l].list|), Tour(s, l + 1);
      forall i, j | 0 <= i < |b| && 0 <= j < |rest| ensures Precedes(s, b[i], rest[j]) {
        assert b[i] in b && rest[j] in rest;
      }
    }
  }

  /** The tour is complete exactly if no empty level comes before a level that is not empty. */
  lemma TourIsComplete(s: State)
    requires Shape(s)
    ensures (forall x :: Holds(s, x) ==> x in Tour(s, 0)) <==>
            (forall l, m :: 0 <= l < m < LEVELS && s.levels[l].list == [] ==> s.levels[m].list == [])
  {
    hide Inv, Clients, Tour;
    TourVisits(s, 0);
    forall m: Pri ensures s.levels[m].list != [] ==> Holds(s, Stop(m, KeyOf(s.levels[m].list[0]))) {}
  }

  /** Without a client it can miss what is there: one add below the top level is listed and never shown. */
  lemma TourCanMissRoutes(m: Msg, pri: Pri)
    requires !m.del && pri > 0
    ensures var s := Step(START, Pub(Accept(m), pri));
            && Reachable(s) && m.topic in s.st.table.hash
            && Holds(s.st, Stop(pri, Handle(s.st.table.hash[m.topic].handle))) && Tour(s.st, 0) == []
  {
    var s := Step(START, Pub(Accept(m), pri));
    StartIsReachable();
    StepIsReachable(START, Pub(Accept(m), pri));
    assert s.st.levels[pri].list[0] in s.st.levels[pri].list;
  }

  /** With a client about, every level holds its cursor: the tour visits everything, once, in order. */
  lemma TourWithClients(s: State)
    requires Shape(s) && Clients(s) != {}
    ensures forall x :: x in Tour(s, 0) <==> Holds(s, x)
    ensures forall i, j :: 0 <= i < j < |Tour(s, 0)| ==> Tour(s, 0)[i] != Tour(s, 0)[j]
    ensures InOrder(s, Tour(s, 0))
  {
    hide Tour, InOrder;
    var c :| c in Clients(s);
    forall l: Pri ensures s.levels[l].list != [] {
      assert Inv(s.levels[l]) && c in s.levels[l].cur.Keys;
    }
    TourVisits(s, 0);
    TourInOrder(s, 0);
  }
}
