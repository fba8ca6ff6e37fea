/**
 How long a client can be kept reading: with no publish in between, a client
 with k pending objects is drained by k + LEVELS reads.
 */
module Progress {
  import opened Broker
  import opened Routes
  import opened RouteInvariants
  import opened Runs

  ghost predicate Registered(s: State, c: ClientId) {
    forall l: Pri :: c in s.levels[l].cur
  }

  /** Reads that level `l` can still cost: one per object, one if it only looks as if it had data. */
  ghost function Load(s: State, l: Pri, c: ClientId): nat
    requires c in s.levels[l].cur
  {
    |Pending(s.levels[l], c)| + if Behind(s, l, c) then 1 else 0
  }

  ghost function Measure(s: State, c: ClientId): nat
    requires Registered(s, c)
  {
    Load(s, 0, c) + Load(s, 1, c) + Load(s, 2, c)
  }

  ghost function PendingCount(s: State, c: ClientId): nat
    requires Registered(s, c)
  {
    |Pending(s.levels[0], c)| + |Pending(s.levels[1], c)| + |Pending(s.levels[2], c)|
  }

  lemma ClientsRegistered(s: State, c: ClientId)
    requires Shape(s) && c in Clients(s)
    ensures Registered(s, c)
  {
  }

  /** Equal ids mean that nothing is pending. */
  lemma CaughtUpHasNothing(b: Broker, c: ClientId)
    requires Inv(b) && c in b.cur && b.cur[c] == b.id
    ensures Pending(b, c) == {}
  {
  }

  lemma NoDataIsNoLoad(s: State, c: ClientId)
    requires Shape(s) && Registered(s, c)
    ensures HasData(s, c) <==> Measure(s, c) > 0
    ensures !HasData(s, c) ==> PendingCount(s, c) == 0
  {
    hide Inv;
    forall l: Pri | !Behind(s, l, c) ensures Pending(s.levels[l], c) == {} { CaughtUpHasNothing(s.levels[l], c); }
  }

  /** What data_available_for_client rules out, it rules out rightly. */
  lemma NoDataIsDrained(s: State, c: ClientId)
    requires Shape(s) && c in Clients(s) && !HasData(s, c)
    ensures Drained(s, c)
  {
    hide Inv;
    ClientsRegistered(s, c);
    forall l: Pri ensures Pending(s.levels[l], c) == {} { CaughtUpHasNothing(s.levels[l], c); }
  }

  // ----- what a read costs -----

  lemma ReadShrinksPending(b: Broker, c: ClientId)
    requires Inv(b) && c in b.cur
    ensures var b' := GetData(b, c).b;
            && c in b'.cur
            && (NextFor(b, c) == |b.list| ==> b'.cur[c] == b'.id && Pending(b', c) == {})
            && (NextFor(b, c) < |b.list| ==>
                  b.list[NextFor(b, c)] in Pending(b, c) && Pending(b', c) == Pending(b, c) - {b.list[NextFor(b, c)]})
  {
    hide Inv, GetData, NextFor, Keep;
    GetDataFacts(b, c);
    NextForIsLeastPending(b, c);
    var b', j := GetData(b, c).b, NextFor(b, c);
    assert forall e :: e in Pending(b', c) <==> e in Objs(b') && ReadId(b, c) < e.id;
    assert forall e :: e in Pending(b, c) <==> e in Objs(b) && b.cur[c] < e.id;
    if j < |b.list| {
      forall e | e in Objs(b) && e.id == b.list[j].id ensures e == b.list[j] { IdsDistinct(b, e, b.list[j]); }
    } else {
      CaughtUpHasNothing(b', c);
    }
  }

  lemma ReadLowersMeasure(s: State, c: ClientId)
    requires Base(s) && c in Clients(s) && HasData(s, c)
    ensures var t := Read(s, Available(s, c), c);
            Registered(s, c) && Registered(t, c) && Measure(t, c) < Measure(s, c)
  {
    hide All, Inv, Unique, Indexed, Conserved, GetData, UnlockAll, NextFor, Pending, Next, ReadId, Available;
    var l := Available(s, c);
    var t := Read(s, l, c);
    ClientsRegistered(s, c);
    ReadCursors(s, l, c);
    ReadShrinksPending(s.levels[l], c);
    var p, p' := Pending(s.levels[l], c), Pending(t.levels[l], c);
    if NextFor(s.levels[l], c) < |s.levels[l].list| {
      assert |p'| == |p| - 1;
    }
    forall i: Pri | i != l ensures t.levels[i] == s.levels[i] {}
  }

  // ----- other events do not add to it -----

  /** Objects may go and others may move; `c` is left alone. */
  ghost predicate LeftAlone(s: State, t: State, c: ClientId) {
    forall l: Pri ::
      && c in s.levels[l].cur && c in t.levels[l].cur
      && t.levels[l].cur[c] == s.levels[l].cur[c] && t.levels[l].id == s.levels[l].id
      && Objs(t.levels[l]) <= Objs(s.levels[l])
  }

  lemma SubsetCard(p: set<Entry>, q: set<Entry>)
    requires p <= q
    ensures |p| <= |q|
  {
    assert q == p + (q - p);
  }

  lemma LeftAloneKeepsMeasure(s: State, t: State, c: ClientId)
    requires LeftAlone(s, t, c)
    ensures Registered(s, c) && Registered(t, c) && Measure(t, c) <= Measure(s, c)
    ensures !HasData(s, c) ==> !HasData(t, c)
  {
    forall l: Pri ensures Load(t, l, c) <= Load(s, l, c) {
      var p, p' := Pending(s.levels[l], c), Pending(t.levels[l], c);
      assert p' <= p by {
        forall e | e in p' ensures e in p { assert e in Objs(t.levels[l]); }
      }
      SubsetCard(p', p);
    }
  }

  ghost predicate Quiet(e: Event, c: ClientId) {
    !(e.Pub? && e.i.Accept?) && e != Leave(c) && e != Join(c)
  }

  lemma ListingShrinks(s: State, t: State, c: ClientId)
    requires Registered(s, c) && Registered(t, c) && All(t) <= All(s)
    requires forall l: Pri :: t.levels[l].cur[c] == s.levels[l].cur[c] && t.levels[l].id == s.levels[l].id
    ensures LeftAlone(s, t, c)
  {
    forall l: Pri, e | e in Objs(t.levels[l]) ensures e in Objs(s.levels[l]) {
      assert At(l, e) in All(t);
      assert At(l, e) in All(s);
    }
  }

  lemma DiscardListing(s: State, copied: bool, c: ClientId)
    requires Registered(s, c)
    ensures LeftAlone(s, Discard(s, copied), c)
  {
  }

  lemma JoinLeavesAlone(s: State, d: ClientId, c: ClientId)
    requires Base(s) && d !in Clients(s) && c in Clients(s)
    ensures LeftAlone(s, ClientCreateAll(s, d), c)
  {
    hide Inv, Unique, Indexed, Conserved, Good, HasObj;
    var t := ClientCreateAll(s, d);
    ClientsRegistered(s, c);
    ClientCreateKeepsBase(s, d);
    forall l: Pri ensures Objs(t.levels[l]) == Objs(s.levels[l]) { assert t.levels[l].list == [Cursor(d)] + s.levels[l].list; }
  }

  lemma QuietLeavesAlone(s: Sys, e: Event, c: ClientId)
    requires Sound(s) && Enabled(s, e) && c in s.got && Quiet(e, c) && e != Get(c)
    ensures LeftAlone(s.st, Step(s, e).st, c)
  {
    hide All, Inv, Objs, Good, Unique, Indexed, Conserved, LogOk, ClientDeleteAll, ClientCreateAll, Read, LeftAlone;
    hide Discard;
    var t := Step(s, e).st;
    StepIsSound(s, e);
    ClientsRegistered(s.st, c);
    ClientsRegistered(t, c);
    match e
    case Pub(i, _) => DiscardListing(s.st, i.NoTopic?, c); if i.NoRoute? { ListingShrinks(s.st, t, c); }
    case Join(d) => JoinLeavesAlone(s.st, d, c);
    case Leave(d) => ClientDeleteLevels(s.st, d); ListingShrinks(s.st, t, c);
    case Get(d) =>
      var l := Available(s.st, d);
      if l < LEVELS {
        ReadReleases(s.st, l, d);
        ReadCursors(s.st, l, d);
      }
      ListingShrinks(s.st, t, c);
    case Wake(_) => ListingShrinks(s.st, t, c);
  }

  // ----- runs -----

  function Reads(es: seq<Event>, c: ClientId): nat {
    if es == [] then 0 else (if es[0] == Get(c) then 1 else 0) + Reads(es[1..], c)
  }

  lemma GetLowersMeasure(s: Sys, c: ClientId)
    requires Sound(s) && Enabled(s, Get(c))
    ensures var t := Step(s, Get(c));
            && Registered(s.st, c) && Registered(t.st, c)
            && (Measure(s.st, c) > 0 ==> Measure(t.st, c) < Measure(s.st, c))
            && (Measure(s.st, c) == 0 ==> Measure(t.st, c) == 0)
  {
    hide All, Inv, Good, Unique, Indexed, Conserved, LogOk, Measure, Read;
    ClientsRegistered(s.st, c);
    NoDataIsNoLoad(s.st, c);
    if HasData(s.st, c) { ReadLowersMeasure(s.st, c); }
  }

  lemma SoundRegisters(s: Sys, c: ClientId)
    requires Sound(s) && c in s.got
    ensures Registered(s.st, c) && Shape(s.st)
  {
  }

  /** Every read of a client that is not drained counts, whatever the others do meanwhile. */
  lemma {:induction false} QuietRun(s: Sys, es: seq<Event>, c: ClientId)
    requires Sound(s) && Legal(s, es) && c in s.got && forall e :: e in es ==> Quiet(e, c)
    ensures var t := Run(s, es);
            && Sound(t) && c in t.got && Registered(s.st, c) && Registered(t.st, c)
            && (Measure(t.st, c) == 0 || Measure(t.st, c) + Reads(es, c) <= Measure(s.st, c))
    decreases |es|
  {
    hide Base, LogOk, Measure, Registered, Available;
    assert Registered(s.st, c) by { SoundRegisters(s, c); }
    if es != [] {
      var e, t := es[0], Step(s, es[0]);
      assert Quiet(e, c);
      StepIsSound(s, e);
      QuietRun(t, es[1..], c);
      if e == Get(c) {
        GetLowersMeasure(s, c);
      } else {
        QuietLeavesAlone(s, e, c);
        LeftAloneKeepsMeasure(s.st, t.st, c);
      }
    }
  }

  lemma MeasureBound(s: State, c: ClientId)
    requires Registered(s, c)
    ensures Measure(s, c) <= PendingCount(s, c) + LEVELS
  {
  }

  /** The bound: k pending objects cost at most k + LEVELS reads, NULL reads included. */
  lemma DrainBound(s: Sys, es: seq<Event>, c: ClientId)
    requires Sound(s) && Legal(s, es) && c in s.got && forall e :: e in es ==> Quiet(e, c)
    ensures Registered(s.st, c) && Registered(Run(s, es).st, c)
    ensures Reads(es, c) >= PendingCount(s.st, c) + LEVELS ==>
              !HasData(Run(s, es).st, c) && PendingCount(Run(s, es).st, c) == 0
  {
    hide Sound, Legal, Reads, Run, HasData, Measure, PendingCount, Registered, Shape;
    QuietRun(s, es, c);
    MeasureBound(s.st, c);
    SoundRegisters(Run(s, es), c);
    NoDataIsNoLoad(Run(s, es).st, c);
  }

  /** A client that keeps reading gets there. */
  lemma CanDrain(s: Sys, c: ClientId) returns (es: seq<Event>)
    requires Sound(s) && c in s.got && c !in s.waiting
    ensures Legal(s, es) && forall e :: e in es ==> e == Get(c)
    ensures !HasData(Run(s, es).st, c) && Enabled(Run(s, es), Get(c))
    ensures Registered(s.st, c) && |es| <= Measure(s.st, c) <= PendingCount(s.st, c) + LEVELS
    decreases if Registered(s.st, c) then Measure(s.st, c) else 0
  {
    hide Sound, Measure, PendingCount, Registered, Available;
    SoundRegisters(s, c);
    MeasureBound(s.st, c);
    if HasData(s.st, c) {
      NoDataIsNoLoad(s.st, c);
      GetLowersMeasure(s, c);
      StepIsSound(s, Get(c));
      var t := Step(s, Get(c));
      var rest := CanDrain(t, c);
      es := [Get(c)] + rest;
      assert es[1..] == rest;
    } else {
      es := [];
    }
  }
}
