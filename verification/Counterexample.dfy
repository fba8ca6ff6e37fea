/**
 A concrete run on which the hypothesis of Convergence.dfy fails, and with it
 convergence: seven events, one client, one topic.
 */
module Counterexample {
  import opened Broker
  import opened Routes
  import opened Runs
  import opened Convergence

  const TOPIC := "r 10.0.0.0/8 0 254"
  const ADD := Msg(TOPIC, false, "via A")
  const DEL := Msg(TOPIC, true, "")

  /** Added at OTHER, deleted at IGP, added again at CONNECTED; the client reads what it can. */
  const BAD_RUN := [Join(0), Pub(Accept(ADD), 2), Get(0), Pub(Accept(DEL), 1), Pub(Accept(ADD), 0), Get(0), Get(0)]

  // The broker with only the cursor of client 0, and with one object that it has yet to read, or has read.
  function Bare(id: nat): Broker { Broker([Cursor(0)], id, map[0 := id]) }
  function Unread(r: Route, id: nat, del: bool): Broker { Broker([Cursor(0), Obj(r, id, del)], id, map[0 := 0]) }
  function HasRead(r: Route, id: nat): Broker { Broker([Obj(r, id, false), Cursor(0)], id, map[0 := id]) }

  const R0 := Route(0, 1, 2, TOPIC, Data(0, ADD))
  const R1 := Route(1, 1, 1, TOPIC, Data(1, DEL))
  const R2 := Route(2, 1, 0, TOPIC, Data(2, ADD))

  lemma ReadUnread(r: Route, id: nat, del: bool)
    requires id > 0
    ensures NextFor(Unread(r, id, del), 0) == 1
    ensures GetData(Unread(r, id, del), 0) == if del then Out(Bare(id), [r]) else Out(HasRead(r, id), [])
  {
  }

  const S1 := Sys(State([Bare(0), Bare(0), Bare(0)], INITIAL.table, 0, 0), {}, [], map[0 := []])
  const S2 := Sys(State([Bare(0), Bare(0), Unread(R0, 1, false)], Table(map[TOPIC := Ref(0, 2)], multiset{}, multiset{}), 1, 1),
                  {}, [ADD], map[0 := []])
  const S3 := S2.(st := S2.st.(levels := [Bare(0), Bare(0), HasRead(R0, 1)]), got := map[0 := [Got(2, 1, ADD)]])
  const S4 := Sys(State([Bare(0), Unread(R1, 2, true), Bare(1)], Table(map[], multiset{0}, multiset{0}), 2, 2),
                  {}, [ADD, DEL], S3.got)
  const S5 := Sys(State([Unread(R2, 1, false), Unread(R1, 2, true), Bare(1)],
                        Table(map[TOPIC := Ref(2, 0)], multiset{0}, multiset{0}), 3, 3), {}, [ADD, DEL, ADD], S3.got)
  const S6 := S5.(st := S5.st.(levels := [HasRead(R2, 1), Unread(R1, 2, true), Bare(1)]),
                  got := map[0 := [Got(2, 1, ADD), Got(0, 1, ADD)]])
  // The live route R2 is listed, but the tombstone R1 took its hash entry away.
  const S7 := S6.(st := State([HasRead(R2, 1), Bare(2), Bare(1)], Table(map[], multiset{0, 1}, multiset{0, 1}), 3, 3),
                  got := map[0 := [Got(2, 1, ADD), Got(0, 1, ADD), Got(1, 2, DEL)]])

  lemma Bad1()
    ensures Step(START, Join(0)) == S1
  {
    assert [Cursor(0)] + [] == [Cursor(0)];
    assert ClientCreate(EMPTY, 0) == Bare(0);
  }

  lemma Bad2()
    ensures Step(S1, Pub(Accept(ADD), 2)) == S2
  {
    assert AddObj(Bare(0), R0.(refcount := 0)) == Unread(R0, 1, false);
    assert S1.st.levels[2 := Unread(R0, 1, false)] == S2.st.levels;
  }

  lemma Bad3()
    ensures Step(S2, Get(0)) == S3
  {
    hide NextFor, GetData, UnlockAll;
    UnlockNone(S2.st.table);
    ReadUnread(R0, 1, false);
    assert Available(S2.st, 0) == 2;
    assert S2.st.levels[2 := HasRead(R0, 1)] == S3.st.levels;
    assert [] + [Got(2, 1, ADD)] == [Got(2, 1, ADD)];
  }

  /** The object of the second level is forced out. */
  lemma ForceOut(t: Table)
    ensures DelNow(HasRead(R0, 1), 0) == Out(Bare(1), [R0]) && UnlockAll(t, [R0]) == Unlock(t, R0)
  {
    assert RemoveAt(HasRead(R0, 1).list, 0) == [Cursor(0)];
    UnlockOne(t, R0);
  }

  /** The delete is listed as an object and moves to the tail with the mark. */
  lemma AddAndDelete()
    ensures DelObj(AddObj(Bare(0), R1.(refcount := 0)), 1) == Out(Unread(R1, 2, true), [])
  {
    var b := AddObj(Bare(0), R1.(refcount := 0));
    assert b == Broker([Cursor(0), Obj(R1, 1, false)], 1, map[0 := 0]);
    assert Find(b.list, Handle(1)) == 1 && RemoveAt(b.list, 1) == [Cursor(0)];
    assert 0 in b.cur;
  }

  lemma Bad4()
    ensures Step(S3, Pub(Accept(DEL), 1)) == S4
  {
    hide DelNow, AddObj, DelObj, UnlockAll;
    ForceOut(S3.st.table);
    AddAndDelete();
    assert Unlock(S3.st.table, R0) == S4.st.table;
    UnlockNone(S4.st.table);
    var b := AddObj(Bare(0), R1.(refcount := 0));
    assert S3.st.levels[2 := Bare(1)][1 := b][1 := Unread(R1, 2, true)] == S4.st.levels;
  }

  lemma Bad5()
    ensures Step(S4, Pub(Accept(ADD), 0)) == S5
  {
    assert AddObj(Bare(0), R2.(refcount := 0)) == Unread(R2, 1, false);
    assert S4.st.levels[0 := Unread(R2, 1, false)] == S5.st.levels;
  }

  lemma Bad6()
    ensures Step(S5, Get(0)) == S6
  {
    hide NextFor, GetData, UnlockAll;
    UnlockNone(S5.st.table);
    ReadUnread(R2, 1, false);
    assert Available(S5.st, 0) == 0;
    assert S5.st.levels[0 := HasRead(R2, 1)] == S6.st.levels;
    assert [Got(2, 1, ADD)] + [Got(0, 1, ADD)] == [Got(2, 1, ADD), Got(0, 1, ADD)];
  }

  lemma Bad7()
    ensures Step(S6, Get(0)) == S7
  {
    hide NextFor, GetData, UnlockAll;
    ReadUnread(R1, 2, true);
    assert Available(S6.st, 0) == 1;
    assert S6.st.levels[1 := Bare(2)] == S7.st.levels;
    UnlockOne(S6.st.table, R1);
    assert [Got(2, 1, ADD), Got(0, 1, ADD)] + [Got(1, 2, DEL)] == S7.got[0];
  }

  lemma {:induction false} Prepend(s: Sys, e: Event, t: Sys, es: seq<Event>)
    requires Enabled(s, e) && Step(s, e) == t && Legal(t, es)
    ensures Legal(s, [e] + es) && Run(s, [e] + es) == Run(t, es)
  {
  }

  lemma Done(s: Sys)
    ensures Legal(s, []) && Run(s, []) == s
  {
  }

  lemma BadRunRuns()
    ensures Legal(START, BAD_RUN) && Run(START, BAD_RUN) == S7
  {
    hide Step, Run, Legal;
    Bad1(); Bad2(); Bad3(); Bad4(); Bad5(); Bad6(); Bad7();
    assert Legal(S7, []) && Run(S7, []) == S7 by { Done(S7); }
    Prepend(S6, Get(0), S7, []);
    Prepend(S5, Get(0), S6, [Get(0)] + []);
    Prepend(S4, Pub(Accept(ADD), 0), S5, [Get(0)] + ([Get(0)] + []));
    var four := [Pub(Accept(ADD), 0)] + ([Get(0)] + ([Get(0)] + []));
    Prepend(S3, Pub(Accept(DEL), 1), S4, four);
    Prepend(S2, Get(0), S3, [Pub(Accept(DEL), 1)] + four);
    Prepend(S1, Pub(Accept(ADD), 2), S2, [Get(0)] + ([Pub(Accept(DEL), 1)] + four));
    var seven := [Pub(Accept(ADD), 2)] + ([Get(0)] + ([Pub(Accept(DEL), 1)] + four));
    Prepend(START, Join(0), S1, seven);
    assert [Join(0)] + seven == BAD_RUN;
  }

  lemma NothingFolds()
    ensures Fold([]) == map[]
  {
  }

  /** The client was told of everything, in the wrong order, and has nothing left to read. */
  lemma BadRunDiverges()
    ensures Legal(START, BAD_RUN) && Run(START, BAD_RUN) == S7 && !HasData(S7.st, 0)
    ensures S7.accepted == [ADD, DEL, ADD] && Authority(S7) == map[TOPIC := ADD.body]
    ensures Msgs(S7.got[0]) == [ADD, ADD, DEL] && Replica(S7, 0) == map[]
  {
    hide Step, Run, Legal, Fold;
    BadRunRuns();
    assert Fold([]) == map[] by { NothingFolds(); }
    FoldAppend([], ADD);
    FoldAppend([ADD], ADD);
    FoldAppend([ADD], DEL);
    FoldAppend([ADD, ADD], DEL);
    FoldAppend([ADD, DEL], ADD);
    assert [] + [ADD] == [ADD] && [ADD] + [ADD] == [ADD, ADD] && [ADD, ADD] + [DEL] == [ADD, ADD, DEL];
    assert [ADD] + [DEL] == [ADD, DEL] && [ADD, DEL] + [ADD] == [ADD, DEL, ADD];
  }
}
