/** A run of the code, respecting H, in which a backend with an embedder's address is
    published and its child then exits by itself: the address is never released. */
module ProtocolLeak {
  import opened Names
  import opened Aliases
  import opened Registry
  import opened Protocol
  import opened ProtocolLedger
  import opened ProtocolTheorems
  import opened ProtocolOrphan

  function Embedding(): Config {
    Config(map[], map[], true, true, true)
  }

  function Published0(): Proc {
    Proc(0, NAME, "x", Some(0))
  }

  function With(maps: Maps, phase: Phase, children: map<nat, Child>, listener: map<string, Holder>): State {
    State(Up, true, maps, map[0 := Add(NAME, NAME, "x", Some(0), phase)], children, listener, {}, {}, {}, 1, {}, multiset{})
  }

  function L2(): State {
    With(Maps(map[], map[], {NAME}, map[], map["x" := NAME]), Reserved, map[], map[])
  }

  function InPendingWith(phase: Phase, listener: map<string, Holder>): State {
    With(Maps(map[], map[], {}, map[NAME := Published0()], map["x" := NAME]), phase, map[0 := Running], listener)
  }

  function L7(): State {
    With(Maps(map[NAME := "x"], map[NAME := Published0()], {}, map[], map[]), Published, map[0 := Running], map["x" := ChildOf(0)])
  }

  lemma Steps0To2()
    ensures Leads(Embedding(), S0(), Admit(0, NAME), S1())
    ensures Leads(Embedding(), S1(), ReserveAddress(0, [Offer("x", None)]), L2())
  {
    NameIsKey();
    hide LookupName;
    assert Range(0, 0) == {};
  }

  lemma Steps2To4()
    ensures Leads(Embedding(), L2(), Launch(0, true), InPendingWith(Waiting, map[]))
    ensures Leads(Embedding(), InPendingWith(Waiting, map[]), Bind(0, "x"), InPendingWith(Waiting, map["x" := ChildOf(0)]))
  {
    hide LookupName;
  }

  lemma Steps4To6()
    ensures Leads(Embedding(), InPendingWith(Waiting, map["x" := ChildOf(0)]), EndWait(0, true), InPendingWith(Ready, map["x" := ChildOf(0)]))
    ensures Leads(Embedding(), InPendingWith(Ready, map["x" := ChildOf(0)]), CheckOwner(0, true), InPendingWith(Owned, map["x" := ChildOf(0)]))
  {
    hide LookupName;
  }

  lemma Steps6To7()
    ensures Leads(Embedding(), InPendingWith(Owned, map["x" := ChildOf(0)]), TryPublish(0), L7())
  {
    NameIsKey();
    hide LookupName;
  }

  lemma PublishedIsReachable()
    ensures ReachableUnderH(Embedding(), L7())
  {
    var c := Embedding();
    StartIsReachableUnderH(c);
    Steps0To2();
    Steps2To4();
    Steps4To6();
    Steps6To7();
    assert S0().adds == map[];
    hide ReachableUnderH, Leads, S0, S1, L2, L7, InPendingWith, Embedding;
    var bound := map["x" := ChildOf(0)];
    WalkUnderH(c, S0(), Admit(0, NAME), S1());
    WalkUnderH(c, S1(), ReserveAddress(0, [Offer("x", None)]), L2());
    WalkUnderH(c, L2(), Launch(0, true), InPendingWith(Waiting, map[]));
    WalkUnderH(c, InPendingWith(Waiting, map[]), Bind(0, "x"), InPendingWith(Waiting, bound));
    WalkUnderH(c, InPendingWith(Waiting, bound), EndWait(0, true), InPendingWith(Ready, bound));
    WalkUnderH(c, InPendingWith(Ready, bound), CheckOwner(0, true), InPendingWith(Owned, bound));
    WalkUnderH(c, InPendingWith(Owned, bound), TryPublish(0), L7());
  }

  lemma HRunIsARun(c: Config, s: State)
    requires ReachableUnderH(c, s)
    ensures Reachable(c, s)
  {
    var steps :| Legal(c, true, Init(c), steps) && s == After(c, true, Init(c), steps);
    hide Init;
    RestrictedRun(c, Init(c), steps);
  }

  function Gone(child: Child, maps: Maps): State {
    With(maps, Published, map[0 := child], map[])
  }

  function L10(): State {
    Gone(Reaped, Maps(map[], map[], {}, map[], map[])).(selfExited := {0})
  }

  lemma Steps7To9()
    ensures Leads(Embedding(), L7(), Exit(0), Gone(Child.Exited, L7().maps))
    ensures Leads(Embedding(), Gone(Child.Exited, L7().maps), Reap(0), Gone(Reaped, L7().maps))
  {
  }

  lemma Steps9To10()
    ensures Leads(Embedding(), Gone(Reaped, L7().maps), WatchExit(0), L10())
  {
    NameIsKey();
    hide LookupName;
  }

  lemma ExitLeadsTo10()
    ensures Legal(Embedding(), false, L7(), [Exit(0), Reap(0), WatchExit(0)])
    ensures After(Embedding(), false, L7(), [Exit(0), Reap(0), WatchExit(0)]) == L10()
  {
    Steps7To9();
    Steps9To10();
    hide L7, L10, Gone, Embedding, Enabled, Apply;
    ThreeSteps(Embedding(), L7(), Exit(0), Reap(0), WatchExit(0));
  }

  lemma L7IsLive()
    ensures ValidConfig(Embedding())
    ensures var s := L7();
            && At(s, 0, Published) && InDynamicMap(s, 0, s.adds[0])
            && s.adds[0].token == Some(0) && ChildOfAdd(s, 0) == Some(Running)
  {
  }

  /** The leak happens: one add, its child's own exit, and the address that was taken is
      not released by anything that may follow, although no map names the backend. */
  lemma LeakIsReachable(steps: seq<Step>)
    ensures ReachableUnderH(Embedding(), L7())
    ensures Legal(Embedding(), false, L7(), [Exit(0), Reap(0), WatchExit(0)])
    ensures After(Embedding(), false, L7(), [Exit(0), Reap(0), WatchExit(0)]) == L10()
    ensures L10().tokens == 1 && L10().maps == Maps(map[], map[], {}, map[], map[])
    ensures Legal(Embedding(), false, L10(), steps) ==> After(Embedding(), false, L10(), steps).releases[0] == 0
  {
    PublishedIsReachable();
    HRunIsARun(Embedding(), L7());
    L7IsLive();
    ExitLeadsTo10();
    hide ReachableUnderH, Reachable, Legal, After, L7, Embedding;
    SelfExitLeaks(Embedding(), L7(), 0, 0, steps);
  }
}
