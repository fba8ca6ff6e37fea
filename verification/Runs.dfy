/**
 Runs of the route broker: every interleaving of publishers, readers and
 clients that come and go.  Each event is what one thread does while it holds
 the mutex; `waiting` are the clients blocked on their condition variable.
 */
module Runs {
  import opened Options
  import opened Broker
  import opened Routes
  import opened RouteInvariants

  /** How far a call of object_broker_publish gets before it takes the mutex. */
  datatype Input = NoRoute | NoCopy | NoTopic | Accept(m: Msg)

  datatype Event = Pub(i: Input, pri: Pri) | Join(c: ClientId) | Leave(c: ClientId) | Get(c: ClientId) | Wake(c: ClientId)

  /** The broker, who waits, and two histories: what was accepted, and what each client was given. */
  datatype Sys = Sys(st: State, waiting: set<ClientId>, accepted: seq<Msg>, got: map<ClientId, seq<Got>>)

  const START := Sys(INITIAL, {}, [], map[])

  // ----- what a sequence of messages amounts to -----

  type Rib = map<Topic, string>

  function Update(r: Rib, m: Msg): Rib {
    if m.del then r - {m.topic} else r[m.topic := m.body]
  }

  function Fold(ms: seq<Msg>): Rib {
    if ms == [] then map[] else Update(Fold(ms[..|ms| - 1]), ms[|ms| - 1])
  }

  function Msgs(gs: seq<Got>): seq<Msg> {
    seq(|gs|, i requires 0 <= i < |gs| => gs[i].msg)
  }

  /** The routes that all that was published adds up to. */
  function Authority(s: Sys): Rib {
    Fold(s.accepted)
  }

  /** The routes that all that `c` was given adds up to. */
  function Replica(s: Sys, c: ClientId): Rib
    requires c in s.got
  {
    Fold(Msgs(s.got[c]))
  }

  // ----- steps -----

  function Discard(s: State, copied: bool): State {
    var t := FreeRoute(s.table, s.routes);
    if copied
    then s.(routes := s.routes + 1, copies := s.copies + 1, table := FreeData(t, s.copies))
    else s.(routes := s.routes + 1, table := t)
  }

  predicate HasData(s: State, c: ClientId) {
    Available(s, c) < LEVELS
  }

  /** No object lies after any cursor of `c`. */
  ghost predicate Drained(s: State, c: ClientId) {
    forall l: Pri :: c in s.levels[l].cur && Pending(s.levels[l], c) == {}
  }

  /** What a read of level `l` adds to the log of `c`. */
  function Gained(s: State, l: Pri, c: ClientId): seq<Got> {
    match Next(s, l, c)
    case None => []
    case Some(got) => [got]
  }

  function GetStep(s: Sys, c: ClientId): Sys
    requires c in s.got
  {
    var l := Available(s.st, c);
    if l == LEVELS then s.(waiting := s.waiting + {c})
    else s.(st := Read(s.st, l, c), got := s.got[c := s.got[c] + Gained(s.st, l, c)])
  }

  predicate Enabled(s: Sys, e: Event) {
    match e
    case Pub(_, _) => true
    case Join(c) => c !in s.got
    case Leave(c) => c in s.got && c !in s.waiting
    case Get(c) => c in s.got && c !in s.waiting
    case Wake(c) => c in s.waiting
  }

  function Step(s: Sys, e: Event): Sys
    requires Enabled(s, e)
  {
    match e
    case Pub(NoRoute, _) => s
    case Pub(NoCopy, _) => s.(st := Discard(s.st, false))
    case Pub(NoTopic, _) => s.(st := Discard(s.st, true))
    case Pub(Accept(m), pri) =>
      var st := Publish(s.st, m, pri);
      s.(st := st, waiting := (set c | c in s.waiting && !HasData(st, c)), accepted := s.accepted + [m])
    case Join(c) => s.(st := ClientCreateAll(s.st, c), got := s.got[c := []])
    case Leave(c) => s.(st := ClientDeleteAll(s.st, c), got := s.got - {c})
    case Get(c) => GetStep(s, c)
    case Wake(c) => s.(waiting := s.waiting - {c})
  }

  predicate Legal(s: Sys, es: seq<Event>)
    decreases |es|
  {
    es != [] ==> Enabled(s, es[0]) && Legal(Step(s, es[0]), es[1..])
  }

  function Run(s: Sys, es: seq<Event>): Sys
    requires Legal(s, es)
    decreases |es|
  {
    if es == [] then s else Run(Step(s, es[0]), es[1..])
  }

  // ----- the invariant of every run -----

  /** One level delivers to one client in the order of its ids, up to the cursor. */
  ghost predicate LogOk(st: State, c: ClientId, gs: seq<Got>) {
    && (forall i :: 0 <= i < |gs| ==> c in st.levels[gs[i].level].cur && gs[i].id <= st.levels[gs[i].level].cur[c])
    && (forall i, j :: 0 <= i < j < |gs| && gs[i].level == gs[j].level ==> gs[i].id < gs[j].id)
  }

  ghost predicate Sound(s: Sys) {
    && Base(s.st) && Clients(s.st) == s.got.Keys && s.waiting <= s.got.Keys
    && (forall c :: c in s.waiting ==> !HasData(s.st, c))
    && (forall c :: c in s.got ==> LogOk(s.st, c, s.got[c]))
  }

  lemma StartIsSound()
    ensures Sound(START)
  {
  }

  lemma SameTable(s: State, t: State)
    requires Base(s) && All(t) == All(s) && t.table.hash == s.table.hash
    ensures Unique(t) && Indexed(t)
  {
  }

  lemma DiscardKeepsBase(s: State, copied: bool)
    requires Base(s)
    ensures Base(Discard(s, copied)) && All(Discard(s, copied)) == All(s)
  {
    hide Inv, Unique, Indexed;
    var t := Discard(s, copied);
    AllSame(s, t);
    ListedBounds(s);
    assert forall k: nat :: HandleListed(t, k) == HandleListed(s, k) && CopyListed(t, k) == CopyListed(s, k);
    assert Unique(t) && Indexed(t) by { SameTable(s, t); }
    forall x | x in All(t) ensures Good(t, x) { assert Good(s, x); }
  }

  lemma DiscardIsSound(s: Sys, copied: bool)
    requires Sound(s)
    ensures Sound(s.(st := Discard(s.st, copied)))
  {
    hide All, Inv, Unique, Indexed, Conserved, Good, Shape;
    DiscardKeepsBase(s.st, copied);
  }

  /** A log stays in order while the cursors of its client do not go back. */
  lemma LogKept(st: State, t: State, c: ClientId, gs: seq<Got>)
    requires LogOk(st, c, gs)
    requires forall l: Pri :: c in st.levels[l].cur ==> c in t.levels[l].cur && st.levels[l].cur[c] <= t.levels[l].cur[c]
    ensures LogOk(t, c, gs)
  {
  }

  lemma PubIsSound(s: Sys, m: Msg, pri: Pri)
    requires Sound(s)
    ensures Sound(Step(s, Pub(Accept(m), pri)))
  {
    hide All, Inv, Objs, Publish, Unique, Indexed, Conserved, Good;
    PublishKeepsBase(s.st, m, pri);
    PublishIsReplacement(s.st, m, pri);
    var st := Publish(s.st, m, pri);
    forall c | c in s.got ensures LogOk(st, c, s.got[c]) { LogKept(s.st, st, c, s.got[c]); }
  }

  lemma EmptyLog(st: State, c: ClientId)
    ensures LogOk(st, c, [])
  {
  }

  lemma JoinIsSound(s: Sys, c: ClientId)
    requires Sound(s) && Enabled(s, Join(c))
    ensures Sound(Step(s, Join(c)))
  {
    hide All, Inv, Objs, ClientCreateAll, Unique, Indexed, Conserved, Good, HasObj, Pending, Base, LogOk;
    ClientCreateKeepsBase(s.st, c);
    var st := ClientCreateAll(s.st, c);
    forall d | d in s.got ensures LogOk(st, d, s.got[d]) { LogKept(s.st, st, d, s.got[d]); }
    assert LogOk(st, c, []) by { EmptyLog(st, c); }
  }

  /** A departure leaves the logs of the other clients, and what there is for them, alone. */
  lemma LeaveLeavesOthers(s: State, c: ClientId, d: ClientId, gs: seq<Got>)
    requires Base(s) && c in Clients(s) && d != c
    ensures HasData(ClientDeleteAll(s, c), d) <==> HasData(s, d)
    ensures LogOk(s, d, gs) ==> LogOk(ClientDeleteAll(s, c), d, gs)
  {
    hide Base, All, Shape, Orphans, ClientDeleteAll, LogOk;
    ClientDeleteLevels(s, c);
    if LogOk(s, d, gs) { LogKept(s, ClientDeleteAll(s, c), d, gs); }
  }

  lemma LeaveIsSound(s: Sys, c: ClientId)
    requires Sound(s) && Enabled(s, Leave(c))
    ensures Sound(Step(s, Leave(c)))
  {
    hide Base, All, Shape, Orphans, ClientDeleteAll, LogOk, HasData;
    ClientDeleteLevels(s.st, c);
    ClientDeleteKeepsBase(s.st, c);
    forall d | d in s.got && d != c
      ensures LogOk(ClientDeleteAll(s.st, c), d, s.got[d])
      ensures HasData(ClientDeleteAll(s.st, c), d) <==> HasData(s.st, d)
    {
      LeaveLeavesOthers(s.st, c, d, s.got[d]);
    }
  }

  lemma NoneAvailable(s: State, c: ClientId)
    requires Available(s, c) == LEVELS
    ensures !HasData(s, c)
  {
  }

  /** A read moves one cursor, forward, and to the id of what it delivers. */
  lemma ReadCursors(s: State, l: Pri, c: ClientId)
    requires Base(s) && c in Clients(s)
    ensures var t, id := Read(s, l, c), ReadId(s.levels[l], c);
            && Clients(t) == Clients(s)
            && (forall i: Pri :: t.levels[i].id == s.levels[i].id)
            && (forall i: Pri, d :: d in Clients(s) ==>
                  && d in s.levels[i].cur && d in t.levels[i].cur
                  && t.levels[i].cur[d] == if i == l && d == c then id else s.levels[i].cur[d])
            && s.levels[l].cur[c] <= id
            && match Next(s, l, c)
               case None => true
               case Some(got) => got.level == l && got.id == id && s.levels[l].cur[c] < id
  {
    hide All, Unique, Indexed, Conserved, Good, NextFor, Read, Released, Cut, Objs;
    ReadReleases(s, l, c);
    ReadKeepsBase(s, l, c);
    NextForIsLeastPending(s.levels[l], c);
    forall i: Pri ensures s.levels[i].cur.Keys == Clients(s) && Read(s, l, c).levels[i].cur.Keys == Clients(s) {}
  }

  /** The log of the reader is in order after the delivery. */
  lemma ReaderLog(s: State, l: Pri, c: ClientId, gs: seq<Got>)
    requires Base(s) && c in Clients(s) && LogOk(s, c, gs)
    ensures LogOk(Read(s, l, c), c, gs + Gained(s, l, c))
  {
    hide Base, Read, Next, ReadId;
    ReadCursors(s, l, c);
    assert forall i: Pri :: c in s.levels[i].cur;
  }

  /** A read leaves the logs of the other clients, and what there is for them, alone. */
  lemma ReadLeavesOthers(s: State, l: Pri, c: ClientId, d: ClientId, gs: seq<Got>)
    requires Base(s) && c in Clients(s) && d in Clients(s) && d != c
    ensures HasData(Read(s, l, c), d) <==> HasData(s, d)
    ensures LogOk(s, d, gs) ==> LogOk(Read(s, l, c), d, gs)
  {
    hide Base, Read, Next, ReadId, LogOk;
    ReadCursors(s, l, c);
    if LogOk(s, d, gs) { LogKept(s, Read(s, l, c), d, gs); }
  }

  lemma GetIsSound(s: Sys, c: ClientId)
    requires Sound(s) && Enabled(s, Get(c))
    ensures Sound(Step(s, Get(c)))
  {
    hide Base, Read, Clients, Gained, LogOk, HasData;
    var l := Available(s.st, c);
    if l < LEVELS {
      ReadKeepsBase(s.st, l, c);
      assert Clients(Read(s.st, l, c)) == Clients(s.st) by { ReadCursors(s.st, l, c); }
      ReaderLog(s.st, l, c, s.got[c]);
      forall d | d in s.got && d != c ensures LogOk(Read(s.st, l, c), d, s.got[d]) {
        ReadLeavesOthers(s.st, l, c, d, s.got[d]);
      }
      forall d | d in s.waiting ensures !HasData(Read(s.st, l, c), d) { ReadLeavesOthers(s.st, l, c, d, s.got[d]); }
    } else {
      assert !HasData(s.st, c) by { NoneAvailable(s.st, c); }
    }
  }

  lemma StepIsSound(s: Sys, e: Event)
    requires Sound(s) && Enabled(s, e)
    ensures Sound(Step(s, e))
  {
    match e
    case Pub(NoRoute, _) =>
    case Pub(NoCopy, _) => hide Sound; DiscardIsSound(s, false);
    case Pub(NoTopic, _) => hide Sound; DiscardIsSound(s, true);
    case Pub(Accept(m), pri) => hide Sound, Step; PubIsSound(s, m, pri);
    case Join(c) => hide Sound, Step; JoinIsSound(s, c);
    case Leave(c) => hide Sound, Step; LeaveIsSound(s, c);
    case Get(c) => hide Sound, Step; GetIsSound(s, c);
    case Wake(c) => hide Base, LogOk;
  }

  lemma {:induction false} RunIsSound(s: Sys, es: seq<Event>)
    requires Sound(s) && Legal(s, es)
    ensures Sound(Run(s, es))
    decreases |es|
  {
    hide Sound;
    if es != [] {
      StepIsSound(s, es[0]);
      RunIsSound(Step(s, es[0]), es[1..]);
    }
  }

  /** A state that some run reaches. */
  ghost predicate Reachable(s: Sys) {
    exists es :: Legal(START, es) && Run(START, es) == s
  }

  lemma ReachableIsSound(s: Sys)
    requires Reachable(s)
    ensures Sound(s)
  {
    hide Sound, Run, Legal;
    var es :| Legal(START, es) && Run(START, es) == s;
    StartIsSound();
    RunIsSound(START, es);
  }

  lemma StartIsReachable()
    ensures Reachable(START)
  {
    assert Legal(START, []) && Run(START, []) == START;
  }

  lemma {:induction false} RunSnoc(s: Sys, es: seq<Event>, e: Event)
    requires Legal(s, es) && Enabled(Run(s, es), e)
    ensures Legal(s, es + [e]) && Run(s, es + [e]) == Step(Run(s, es), e)
    decreases |es|
  {
    hide Step, Enabled;
    if es == [] {
      assert es + [e] == [e] && [e][1..] == [];
    } else {
      assert (es + [e])[1..] == es[1..] + [e];
      RunSnoc(Step(s, es[0]), es[1..], e);
    }
  }

  lemma StepIsReachable(s: Sys, e: Event)
    requires Reachable(s) && Enabled(s, e)
    ensures Reachable(Step(s, e))
  {
    hide Step, Enabled, Legal, Run;
    var es :| Legal(START, es) && Run(START, es) == s;
    RunSnoc(START, es, e);
  }
}
