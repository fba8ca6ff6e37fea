/**
 What holds of every run, with no hypothesis on what is published or when.
 */
module EveryRun {
  import opened Options
  import opened Broker
  import opened Routes
  import opened RouteInvariants
  import opened Runs
  import opened Progress

  /** Ids and positions tell the same story at every level. */
  lemma IdsFollowPositions(s: Sys, l: Pri, i: nat, j: nat)
    requires Reachable(s) && i < j < |s.st.levels[l].list|
    ensures var b, x, y := s.st.levels[l], s.st.levels[l].list[i], s.st.levels[l].list[j];
            && (x.Obj? ==> 1 <= x.id <= b.id)
            && (x.Cursor? ==> x.c in b.cur && b.cur[x.c] <= b.id)
            && (x.Obj? && y.Obj? ==> x.id < y.id)
            && (x.Obj? && y.Cursor? ==> y.c in b.cur && x.id <= b.cur[y.c])
            && (x.Cursor? && y.Obj? ==> b.cur[x.c] < y.id)
  {
    hide All, Good, Unique, Indexed, Conserved, LogOk, Reachable;
    ReachableIsSound(s);
    var b := s.st.levels[l];
    assert Inv(b);
    assert InRange(b, b.list[i]) && InRange(b, b.list[j]);
    CutPair(b.list, b.cur, i, j);
  }

  /** A tombstone has a cursor before it: it is there because a client has yet to read it. */
  lemma TombstonesAreAwaited(s: Sys, l: Pri, i: nat)
    requires Reachable(s) && i < |s.st.levels[l].list| && s.st.levels[l].list[i].Obj? && s.st.levels[l].list[i].del
    ensures exists j :: 0 <= j < i && s.st.levels[l].list[j].Cursor?
    ensures s.got != map[]
  {
    hide Inv, Unique, Indexed, Conserved, LogOk, Reachable;
    ReachableIsSound(s);
    var b := s.st.levels[l];
    assert At(l, b.list[i]) in All(s.st);
    assert Good(s.st, At(l, b.list[i]));
    NeededIsPositional(b, i);
    var c :| c in b.cur && b.cur[c] < b.list[i].id;
    assert c in b.cur.Keys;
  }

  /** A read or the departure of a client frees exactly the tombstones that nobody awaits any more. */
  lemma ReclamationIsExact(s: Sys, e: Event, x: Item)
    requires Reachable(s) && Enabled(s, e) && (e.Get? || e.Leave?) && x in All(s.st)
    ensures var t := Step(s, e).st;
            x in All(t) <==> (x.e.del ==> Needed(t.levels[x.l].cur, x.e.id))
  {
    hide All, Inv, Objs, Unique, Indexed, Conserved, LogOk, ClientDeleteAll, Read, Reachable, Needed;
    ReachableIsSound(s);
    StepIsSound(s, e);
    var t := Step(s, e).st;
    if x in All(t) { assert Good(t, x); }
    match e
    case Leave(c) =>
      ClientDeleteLevels(s.st, c);
    case Get(c) =>
      var l := Available(s.st, c);
      if l < LEVELS {
        ReadReleases(s.st, l, c);
        assert x in Items(l, ReadGone(s.st.levels[l], c)) ==> x.e in ReadGone(s.st.levels[l], c);
      }
  }

  /** The minimum-id test of no_clients_need_this is the question about positions. */
  lemma CheapTestIsExact(s: Sys, l: Pri, i: nat)
    requires Reachable(s) && i < |s.st.levels[l].list| && s.st.levels[l].list[i].Obj?
    ensures Needed(s.st.levels[l].cur, s.st.levels[l].list[i].id) <==>
            exists j :: 0 <= j < i && s.st.levels[l].list[j].Cursor?
  {
    hide Inv, All, Good, Unique, Indexed, Conserved, LogOk, Reachable;
    ReachableIsSound(s);
    NeededIsPositional(s.st.levels[l], i);
  }

  /** The figure shown as "behind" does not underflow, and bounds what is pending. */
  lemma BehindOnEveryRun(s: Sys, l: Pri, c: ClientId)
    requires Reachable(s) && c in s.got
    ensures var b := s.st.levels[l];
            c in b.cur && b.cur[c] <= b.id && |Pending(b, c)| <= b.id - b.cur[c]
  {
    hide Inv, All, Good, Unique, Indexed, Conserved, LogOk, Reachable;
    ReachableIsSound(s);
    ClientsRegistered(s.st, c);
    BehindIsABound(s.st.levels[l], c);
  }

  /** No lost wakeup: whoever waits unsignalled has nothing to read. */
  lemma NoLostWakeup(s: Sys, c: ClientId)
    requires Reachable(s) && c in s.waiting
    ensures Drained(s.st, c)
  {
    hide Inv, All, Good, Unique, Indexed, Conserved, LogOk, Reachable, Available;
    ReachableIsSound(s);
    NoDataIsDrained(s.st, c);
  }

  /** Equal ids at every level: there is nothing to tell the client. */
  predicate UpToDate(s: State, c: ClientId) {
    forall l: Pri :: c in s.levels[l].cur && s.levels[l].cur[c] == s.levels[l].id
  }

  lemma UpToDateHasNone(s: State, c: ClientId)
    requires forall l: Pri :: c in s.levels[l].cur
    ensures UpToDate(s, c) <==> Available(s, c) == LEVELS
  {
  }

  /** A reader is put to sleep exactly if it is up to date, and then nothing else happens. */
  lemma SleepIsExact(s: Sys, c: ClientId)
    requires Reachable(s) && Enabled(s, Get(c))
    ensures c in Step(s, Get(c)).waiting <==> UpToDate(s.st, c)
    ensures UpToDate(s.st, c) ==> Step(s, Get(c)) == s.(waiting := s.waiting + {c})
    ensures !UpToDate(s.st, c) ==> Step(s, Get(c)).waiting == s.waiting
  {
    hide Inv, All, Good, Unique, Indexed, Conserved, LogOk, Reachable, Available, UpToDate, Read, Gained;
    ReachableIsSound(s);
    ClientsRegistered(s.st, c);
    UpToDateHasNone(s.st, c);
  }

  /** Waking for nothing does no harm: the client may look again at any time, and goes back to sleep. */
  lemma WakingForNothing(s: Sys, c: ClientId)
    requires Reachable(s) && c in s.waiting
    ensures Enabled(s, Wake(c)) && Enabled(Step(s, Wake(c)), Get(c))
    ensures Step(Step(s, Wake(c)), Get(c)) == s
  {
    hide Base, LogOk, Reachable, Available;
    ReachableIsSound(s);
    StepIsReachable(s, Wake(c));
    assert s.waiting - {c} + {c} == s.waiting;
    assert Available(s.st, c) == LEVELS;
  }

  /** Whatever has happened, every client can come to wait: it reads until it is up to date, and once more. */
  lemma EveryClientCanWait(s: Sys, c: ClientId) returns (es: seq<Event>)
    requires Reachable(s) && Enabled(s, Get(c))
    ensures Legal(s, es) && (forall e :: e in es ==> e == Get(c)) && c in Run(s, es).waiting
  {
    hide Sound, Reachable, Legal, Run, Measure, PendingCount;
    ReachableIsSound(s);
    var gets := CanDrain(s, c);
    RunSnoc(s, gets, Get(c));
    es := gets + [Get(c)];
  }

  lemma ObjInRange(b: Broker, e: Entry)
    requires Inv(b) && e in Objs(b)
    ensures 1 <= e.id <= b.id
  {
    assert InRange(b, e);
  }

  lemma LandingShows(s: State, m: Msg, pri: Pri, c: ClientId)
    requires Base(s) && c in Clients(s) && !HasData(s, c) && Lands(s, m)
    ensures HasData(Publish(s, m, pri), c)
  {
    hide Objs, Cut, Unique, Indexed, Conserved, Publish;
    var t, n := Publish(s, m, pri), Landed(s, m, pri);
    PublishIsReplacement(s, m, pri);
    assert n in All(t);
    ClientsRegistered(s, c);
    assert !Behind(s, n.l, c) && s.levels[n.l].id < n.e.id;
    assert n.e.id <= t.levels[n.l].id by { ObjInRange(t.levels[n.l], n.e); }
    assert Behind(t, n.l, c);
  }

  lemma NothingShows(s: State, m: Msg, pri: Pri, c: ClientId)
    requires Base(s) && c in Clients(s) && !HasData(s, c) && !Lands(s, m)
    ensures !HasData(Publish(s, m, pri), c)
  {
    hide Base;
    assert Publish(s, m, pri).levels == s.levels;
  }

  /** A publish wakes everybody if an object lands, and nobody otherwise. */
  lemma SignalsAreExact(s: Sys, m: Msg, pri: Pri)
    requires Reachable(s)
    ensures Step(s, Pub(Accept(m), pri)).waiting == if Lands(s.st, m) then {} else s.waiting
  {
    hide Base, LogOk, Publish, Available, Reachable;
    ReachableIsSound(s);
    var t := Publish(s.st, m, pri);
    forall c | c in s.waiting ensures HasData(t, c) <==> Lands(s.st, m) {
      if Lands(s.st, m) { LandingShows(s.st, m, pri, c); } else { NothingShows(s.st, m, pri, c); }
    }
  }

  /** Who waits after an event: the reader that is up to date, and those who waited and were not woken. */
  lemma WhoWaits(s: Sys, e: Event, d: ClientId)
    requires Reachable(s) && Enabled(s, e)
    ensures d in Step(s, e).waiting <==>
              match e
              case Get(c) => d in s.waiting || (d == c && UpToDate(s.st, c))
              case Pub(Accept(m), _) => d in s.waiting && !Lands(s.st, m)
              case Wake(c) => d in s.waiting && d != c
              case _ => d in s.waiting
  {
    hide Reachable, Lands, UpToDate, HasData, Available;
    match e
    case Get(c) => SleepIsExact(s, c);
    case Pub(Accept(m), pri) => SignalsAreExact(s, m, pri);
    case _ =>
  }

  /** A message that is not accepted leaves no trace: what it allocated is freed, and nobody is told. */
  lemma RejectedLeavesNoTrace(s: Sys, i: Input, pri: Pri)
    requires Reachable(s) && !i.Accept?
    ensures var t := Step(s, Pub(i, pri));
            && t == s.(st := t.st) && t.st.levels == s.st.levels && t.st.table.hash == s.st.table.hash
            && t.st.routes == s.st.routes + (if i.NoRoute? then 0 else 1)
            && t.st.copies == s.st.copies + (if i.NoTopic? then 1 else 0)
            && (forall k: nat :: s.st.routes <= k < t.st.routes ==> t.st.table.freedRoutes[k] == 1)
            && (forall k: nat :: s.st.copies <= k < t.st.copies ==> t.st.table.freedData[k] == 1)
  {
    hide Reachable, Inv, Good, Unique, Indexed, LogOk;
    ReachableIsSound(s);
    ListedBounds(s.st);
  }

  /** A client that joins is not sent to look at levels that have nothing for it. */
  lemma JoinSeesNoPhantoms(s: Sys, c: ClientId, l: Pri)
    requires Reachable(s) && c !in s.got
    ensures Behind(Step(s, Join(c)).st, l, c) <==> exists e :: e in Objs(s.st.levels[l])
  {
    hide Inv, Objs, Unique, Indexed, Conserved, Good, LogOk, ClientCreateAll, ClientCreate, Reachable;
    ReachableIsSound(s);
    ClientCreateKeepsBase(s.st, c);
    assert Objs(s.st.levels[l]) != {} <==> exists e :: e in Objs(s.st.levels[l]);
  }

  /** Clients see only payloads; they say what the list says. */
  lemma PayloadMatchesMark(s: Sys, x: Item)
    requires Reachable(s) && x in All(s.st)
    ensures x.e.del == x.e.r.data.msg.del && x.e.r.topic == x.e.r.data.msg.topic && x.e.r.pri == x.l
  {
    hide Inv, All, Unique, Indexed, Conserved, LogOk, Reachable;
    ReachableIsSound(s);
    assert Good(s.st, x);
  }

  /** Each route and payload ever allocated sits in one list, with one reference, or was freed once. */
  lemma NothingLeaksOrIsFreedTwice(s: Sys)
    requires Reachable(s)
    ensures forall x :: x in All(s.st) ==> x.e.r.refcount == 1
    ensures forall x, y :: x in All(s.st) && y in All(s.st) && x.e.r.handle == y.e.r.handle ==> x == y
    ensures forall k: nat :: s.st.table.freedRoutes[k] == if k < s.st.routes && !HandleListed(s.st, k) then 1 else 0
    ensures forall k: nat :: s.st.table.freedData[k] == if k < s.st.copies && !CopyListed(s.st, k) then 1 else 0
    ensures forall k: nat :: HandleListed(s.st, k) ==> k < s.st.routes
    ensures forall k: nat :: CopyListed(s.st, k) ==> k < s.st.copies
  {
    hide Inv, All, Indexed, LogOk, Reachable;
    ReachableIsSound(s);
    ListedBounds(s.st);
    forall x | x in All(s.st) ensures x.e.r.refcount == 1 { assert Good(s.st, x); }
  }

  /** Even on runs that break the hypothesis of convergence, a hash entry is never dangling. */
  lemma HashNeverDangles(s: Sys, t: Topic)
    requires Reachable(s) && t in s.st.table.hash
    ensures exists x :: x in All(s.st) && Points(s.st.table.hash[t], t, x)
  {
    hide Inv, All, Unique, Conserved, Good, LogOk, Reachable;
    ReachableIsSound(s);
  }

  /** No level above the one that delivers has anything for the client, and it gets the oldest. */
  lemma PriorityOrder(s: Sys, c: ClientId)
    requires Reachable(s) && c in s.got && c !in s.waiting && Available(s.st, c) < LEVELS
    ensures forall i: Pri :: i < Available(s.st, c) ==> c in s.st.levels[i].cur && Pending(s.st.levels[i], c) == {}
    ensures var l := Available(s.st, c);
            match Next(s.st, l, c)
            case None => c in s.st.levels[l].cur && Pending(s.st.levels[l], c) == {}
            case Some(got) =>
              && got.level == l && c in s.st.levels[l].cur
              && (exists e :: e in Pending(s.st.levels[l], c) && e.id == got.id && e.r.data.msg == got.msg)
              && (forall e :: e in Pending(s.st.levels[l], c) ==> got.id <= e.id)
  {
    hide Inv, All, Good, Unique, Indexed, Conserved, LogOk, Reachable, NextFor, Pending;
    ReachableIsSound(s);
    ClientsRegistered(s.st, c);
    forall i: Pri | i < Available(s.st, c) ensures Pending(s.st.levels[i], c) == {} {
      CaughtUpHasNothing(s.st.levels[i], c);
    }
    NextForIsLeastPending(s.st.levels[Available(s.st, c)], c);
  }

  /** What one level gives one client comes in strictly increasing id: nothing twice, nothing out of order. */
  lemma DeliveriesIncrease(s: Sys, c: ClientId, i: nat, j: nat)
    requires Reachable(s) && c in s.got && i < j < |s.got[c]| && s.got[c][i].level == s.got[c][j].level
    ensures s.got[c][i].id < s.got[c][j].id
  {
    hide Base, Reachable;
    ReachableIsSound(s);
    assert LogOk(s.st, c, s.got[c]);
  }
}
