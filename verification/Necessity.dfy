/**
 The hypothesis of Convergence.dfy is exact.  Adding a route while an unhashed
 tombstone of its topic is listed dooms the route: the tombstone, when it goes,
 takes the hash entry of the live route with it.  From there the deletion of the
 route is ignored, and a client that joins later is given the deleted route.
 */
module Necessity {
  import opened Broker
  import opened Routes
  import opened RouteInvariants
  import opened Runs
  import opened Convergence
  import opened Progress

  // ----- joining runs -----

  lemma {:induction false} RunConcat(s: Sys, a: seq<Event>, b: seq<Event>)
    requires Legal(s, a) && AllObey(s, a) && Legal(Run(s, a), b) && AllObey(Run(s, a), b)
    ensures Legal(s, a + b) && AllObey(s, a + b) && Run(s, a + b) == Run(Run(s, a), b)
    decreases |a|
  {
    hide Step, Obeys, Enabled;
    if a == [] {
      assert a + b == b;
    } else {
      assert (a + b)[1..] == a[1..] + b;
      RunConcat(Step(s, a[0]), a[1..], b);
    }
  }

  lemma {:induction false} SilentObeys(s: Sys, es: seq<Event>)
    requires Legal(s, es) && forall e :: e in es ==> !e.Pub?
    ensures AllObey(s, es)
    decreases |es|
  {
    hide Step, Enabled;
    if es != [] {
      assert es[0] in es;
      SilentObeys(Step(s, es[0]), es[1..]);
    }
  }

  // ----- a doomed topic -----

  /** A live route is listed, and its hash entry, if there is one, will go with a tombstone. */
  ghost predicate Doomed(s: State, t: Topic) {
    && (exists x :: x in All(s) && x.e.r.topic == t && !x.e.del)
    && (t in s.table.hash ==> exists y :: y in All(s) && y.e.r.topic == t && y.e.del)
  }

  lemma BadAddDooms(s: State, m: Msg, pri: Pri)
    requires Base(s) && !m.del && StrayFor(s, m.topic)
    ensures Doomed(Publish(s, m, pri), m.topic)
  {
    hide All, Inv, Unique, Conserved, Publish;
    var t := Publish(s, m, pri);
    PublishIsReplacement(s, m, pri);
    LandedIsGood(s, m, pri, t);
    var n := Landed(s, m, pri);
    assert n in All(t) && n.e.r.topic == m.topic && !n.e.del;
    var y :| y in All(s) && y.e.r.topic == m.topic && y.e.del && !HashedBy(s, y);
    assert y in All(t);
  }

  lemma LeaveKeepsDoomed(s: State, c: ClientId, t: Topic)
    requires Base(s) && c in Clients(s) && Doomed(s, t)
    ensures Doomed(ClientDeleteAll(s, c), t)
  {
    hide All, Inv, Unique, Indexed, Conserved, Good, ClientDeleteAll, Needed;
    ClientDeleteReleases(s, c);
    var x :| x in All(s) && x.e.r.topic == t && !x.e.del;
    assert x in All(ClientDeleteAll(s, c));
  }

  /** Everybody can leave. */
  lemma EmptyOut(s: Sys, t: Topic) returns (es: seq<Event>)
    requires Sound(s) && Doomed(s.st, t)
    ensures Legal(s, es) && AllObey(s, es)
    ensures var u := Run(s, es); Sound(u) && u.got == map[] && Doomed(u.st, t)
    decreases |s.got|, |s.waiting|
  {
    hide Base, LogOk, Doomed;
    es := [];
    if s.got != map[] {
      var c :| c in s.got;
      var e := if c in s.waiting then Wake(c) else Leave(c);
      StepIsSound(s, e);
      if c !in s.waiting {
        assert Base(s.st);
        LeaveKeepsDoomed(s.st, c, t);
        assert Step(s, e).got.Keys == s.got.Keys - {c};
      } else {
        assert Step(s, e).waiting == s.waiting - {c};
      }
      var rest := EmptyOut(Step(s, e), t);
      es := [e] + rest;
      assert es[1..] == rest;
    }
  }

  /** With nobody there, no tombstone is left, and so no hash entry. */
  lemma AloneIsUnhashed(s: Sys, t: Topic)
    requires Sound(s) && s.got == map[] && Doomed(s.st, t)
    ensures t !in s.st.table.hash && forall x :: x in All(s.st) ==> !x.e.del
  {
    hide All, Inv, Unique, Indexed, Conserved, LogOk;
    forall x | x in All(s.st) ensures !x.e.del {
      assert Good(s.st, x) && s.st.levels[x.l].cur.Keys == {};
    }
  }

  // ----- the route that cannot be deleted -----

  /** No tombstones; `x` is live, and once the client has read it, its replica has the topic for good. */
  ghost predicate Haunted(s: Sys, c: ClientId, x: Item) {
    && c in s.got && (forall y :: y in All(s.st) ==> !y.e.del)
    && x in All(s.st) && (Seen(s.st, c, x) ==> x.e.r.topic in Replica(s, c))
  }

  lemma JoinHaunts(s: Sys, c: ClientId, x: Item)
    requires Sound(s) && c !in s.got && x in All(s.st) && forall y :: y in All(s.st) ==> !y.e.del
    ensures Haunted(Step(s, Join(c)), c, x)
  {
    hide Inv, Unique, Indexed, Conserved, Good, LogOk, HasObj, ClientCreate;
    var t := Step(s, Join(c));
    ClientCreateKeepsBase(s.st, c);
    assert x.e in Pending(t.st.levels[x.l], c);
  }

  lemma GetHaunts(s: Sys, c: ClientId, x: Item)
    requires Sound(s) && Haunted(s, c, x) && Enabled(s, Get(c))
    ensures Haunted(Step(s, Get(c)), c, x)
  {
    hide Inv, Objs, Unique, Indexed, Conserved, LogOk, NextFor, Read, All, Seen, Shape, ReadGone, Fold;
    var l := Available(s.st, c);
    if l < LEVELS {
      ReadReleases(s.st, l, c);
      ReadSeen(s.st, l, c, c);
      ReplicaAfter(s, c, l);
      assert Good(s.st, x);
      var b := s.st.levels[l];
      if NextFor(b, c) < |b.list| {
        assert At(l, b.list[NextFor(b, c)]) in All(s.st) by { hide *; NextListed(s.st, l, c); }
        assert Good(s.st, At(l, b.list[NextFor(b, c)]));
      }
    }
  }

  lemma {:induction false} GetsHaunt(s: Sys, es: seq<Event>, c: ClientId, x: Item)
    requires Sound(s) && Legal(s, es) && Haunted(s, c, x) && forall e :: e in es ==> e == Get(c)
    ensures Sound(Run(s, es)) && Haunted(Run(s, es), c, x) && Run(s, es).accepted == s.accepted
    decreases |es|
  {
    hide Sound, Haunted, Available, Next, Read;
    if es != [] {
      assert es[0] in es && forall e :: e in es[1..] ==> e in es;
      StepIsSound(s, es[0]);
      GetHaunts(s, c, x);
      GetsHaunt(Step(s, es[0]), es[1..], c, x);
    }
  }

  lemma HauntedDiverges(s: Sys, c: ClientId, x: Item)
    requires Sound(s) && Haunted(s, c, x) && !HasData(s.st, c) && x.e.r.topic !in Authority(s)
    ensures !Converged(s)
  {
    hide Fold, HasData, LogOk, Inv, Unique, Indexed, Conserved, Good;
    NoDataIsDrained(s.st, c);
    assert x.e !in Pending(s.st.levels[x.l], c);
  }

  /** The ignored delete: it changes nothing but what the publishers think. */
  lemma DeleteIsIgnored(s: Sys, t: Topic) returns (u: Sys)
    requires Sound(s) && s.got == map[] && t !in s.st.table.hash
    ensures u == Step(s, Pub(Accept(Msg(t, true, "")), 0)) && Sound(u) && u.got == map[]
    ensures All(u.st) == All(s.st) && t !in Authority(u)
  {
    hide Fold, LogOk, Base, Publish;
    var m := Msg(t, true, "");
    u := Step(s, Pub(Accept(m), 0));
    StepIsSound(s, Pub(Accept(m), 0));
    BaseParts(s.st);
    PublishIsReplacement(s.st, m, 0);
    FoldAppend(s.accepted, m);
  }

  lemma JoinedIsAwake(s: Sys, c: ClientId)
    requires Sound(s) && c !in s.got
    ensures Step(s, Join(c)).got.Keys == s.got.Keys + {c} && c !in Step(s, Join(c)).waiting
  {
  }

  /** From a doomed topic with nobody listening, a diverged client is four events away. */
  lemma DoomedDiverges(s: Sys, t: Topic) returns (es: seq<Event>)
    requires Sound(s) && s.got == map[] && Doomed(s.st, t)
    ensures Legal(s, es) && AllObey(s, es) && !Converged(Run(s, es))
  {
    hide Sound, Haunted, Available, Converged, Fold, All;
    AloneIsUnhashed(s, t);
    var x :| x in All(s.st) && x.e.r.topic == t && !x.e.del;
    var del := Pub(Accept(Msg(t, true, "")), 0);
    var u := DeleteIsIgnored(s, t);
    JoinHaunts(u, 0, x);
    StepIsSound(u, Join(0));
    var v := Step(u, Join(0));
    assert v.got.Keys == {0} && 0 !in v.waiting by { JoinedIsAwake(u, 0); }
    var gets := CanDrain(v, 0);
    GetsHaunt(v, gets, 0, x);
    SilentObeys(v, gets);
    var w := Run(v, gets);
    assert Authority(w) == Authority(u);
    HauntedDiverges(w, 0, x);
    es := [del, Join(0)] + gets;
    assert es[1..][1..] == gets && es[0] == del && es[1..][0] == Join(0);
  }

  /** A route added while an unhashed tombstone of its topic is listed: some run from there diverges. */
  lemma BadAddDiverges(s: Sys, m: Msg, pri: Pri) returns (es: seq<Event>)
    requires Sound(s) && !m.del && StrayFor(s.st, m.topic)
    ensures var t := Step(s, Pub(Accept(m), pri));
            Legal(t, es) && AllObey(t, es) && !Converged(Run(t, es))
  {
    hide Base, LogOk, Doomed, Converged, StrayFor;
    var t := Step(s, Pub(Accept(m), pri));
    StepIsSound(s, Pub(Accept(m), pri));
    BadAddDooms(s.st, m, pri);
    var a := EmptyOut(t, m.topic);
    var b := DoomedDiverges(Run(t, a), m.topic);
    RunConcat(t, a, b);
    es := a + b;
  }

  /** Whatever happens next, as long as it obeys, clients converge. */
  ghost predicate Safe(s: Sys) {
    forall es :: Legal(s, es) && AllObey(s, es) ==> Converged(Run(s, es))
  }

  /**
   After any run that obeyed the hypothesis so far, adding a route is safe
   exactly if no unhashed tombstone of its topic is listed.
   */
  lemma HypothesisIsExact(past: seq<Event>, m: Msg, pri: Pri)
    requires Legal(START, past) && AllObey(START, past) && !m.del
    ensures var s := Run(START, past);
            Safe(Step(s, Pub(Accept(m), pri))) <==> !StrayFor(s.st, m.topic)
  {
    hide Sound, Agreed, Converged, Run, Legal, AllObey, StrayFor;
    StartIsSound();
    StartAgrees();
    RunAgrees(START, past);
    var s := Run(START, past);
    var e := Pub(Accept(m), pri);
    var t := Step(s, e);
    if StrayFor(s.st, m.topic) {
      var es := BadAddDiverges(s, m, pri);
    } else {
      StepIsSound(s, e);
      StepAgrees(s, e);
      forall es | Legal(t, es) && AllObey(t, es) ensures Converged(Run(t, es)) {
        RunAgrees(t, es);
        AgreedConverges(Run(t, es));
      }
    }
  }
}
