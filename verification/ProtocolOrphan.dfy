/** A run of the code that breaks H, step by step: a failed add deletes its admission mark
    a second time (go/subprocess.go:466), two later adds of the same name are admitted
    together, and the second publication overwrites the first. The first child is then
    alive, published nowhere, and nobody will ever stop it. */
module ProtocolOrphan {
  import opened Names
  import opened Aliases
  import opened Registry
  import opened Protocol
  import opened ProtocolChildren
  import opened ProtocolTheorems

  const NAME := "k"

  function NoStatics(): Config {
    Config(map[], map[], false, true, true)
  }

  function At0(addr: string, phase: Phase): Add {
    Add(NAME, NAME, addr, None, phase)
  }

  function Child0(a: nat, addr: string): Proc {
    Proc(a, NAME, addr, None)
  }

  /** A running state: only the maps, the adds, the children and the listeners matter. */
  function Running0(maps: Maps, adds: map<nat, Add>, children: map<nat, Child>, listener: map<string, Holder>): State {
    State(Up, true, maps, adds, children, listener, {}, {}, {}, 0, {}, multiset{})
  }

  lemma NameIsKey()
    ensures LookupName(NAME) == NAME
  {
    TrimSpaceFixesTrimmed(NAME);
    assert Lower(NAME) == NAME;
  }

  ghost predicate Leads(c: Config, s: State, step: Step, t: State) {
    Enabled(c, false, s, step) && Apply(c, s, step) == t
  }

  lemma ReachableNext(c: Config, s: State, step: Step)
    requires Reachable(c, s) && Enabled(c, false, s, step)
    ensures Reachable(c, Apply(c, s, step))
  {
    var steps :| Legal(c, false, Init(c), steps) && s == After(c, false, Init(c), steps);
    hide Enabled, Apply, Init;
    Extend(c, false, Init(c), steps, step);
  }

  function S0(): State {
    Running0(Maps(map[], map[], {}, map[], map[]),
             map[], map[], map[])
  }

  function S1(): State {
    Running0(Maps(map[], map[], {NAME}, map[], map[]),
             map[0 := At0("", Admitted)], map[], map[])
  }

  function S2(): State {
    Running0(Maps(map[], map[], {NAME}, map[], map["x" := NAME]),
             map[0 := At0("x", Reserved)], map[], map[])
  }

  function S3(): State {
    Running0(Maps(map[], map[], {}, map[], map["x" := NAME]),
             map[0 := At0("x", DropReservation(Twice))], map[], map[])
  }

  function S4(): State {
    Running0(Maps(map[], map[], {NAME}, map[], map["x" := NAME]),
             map[0 := At0("x", DropReservation(Twice)), 1 := At0("", Admitted)], map[], map[])
  }

  function S5(): State {
    Running0(Maps(map[], map[], {NAME}, map[], map[]),
             map[0 := At0("x", ReturnAddress(Twice)), 1 := At0("", Admitted)], map[], map[])
  }

  function S6(): State {
    Running0(Maps(map[], map[], {NAME}, map[], map[]),
             map[0 := At0("x", DropMark(Twice)), 1 := At0("", Admitted)], map[], map[])
  }

  function S7(): State {
    Running0(Maps(map[], map[], {}, map[], map[]),
             map[0 := At0("x", Failed), 1 := At0("", Admitted)], map[], map[])
  }

  function S8(): State {
    Running0(Maps(map[], map[], {NAME}, map[], map[]),
             map[0 := At0("x", Failed), 1 := At0("", Admitted), 2 := At0("", Admitted)], map[], map[])
  }

  function S9(): State {
    Running0(Maps(map[], map[], {NAME}, map[], map["y" := NAME]),
             map[0 := At0("x", Failed), 1 := At0("y", Reserved), 2 := At0("", Admitted)], map[], map[])
  }

  function S10(): State {
    Running0(Maps(map[], map[], {}, map[NAME := Child0(1, "y")], map["y" := NAME]),
             map[0 := At0("x", Failed), 1 := At0("y", Waiting), 2 := At0("", Admitted)], map[1 := Running], map[])
  }

  function S11(): State {
    Running0(Maps(map[], map[], {}, map[NAME := Child0(1, "y")], map["y" := NAME]),
             map[0 := At0("x", Failed), 1 := At0("y", Waiting), 2 := At0("", Admitted)], map[1 := Running], map["y" := ChildOf(1)])
  }

  function S12(): State {
    Running0(Maps(map[], map[], {}, map[NAME := Child0(1, "y")], map["y" := NAME]),
             map[0 := At0("x", Failed), 1 := At0("y", Ready), 2 := At0("", Admitted)], map[1 := Running], map["y" := ChildOf(1)])
  }

  function S13(): State {
    Running0(Maps(map[], map[], {}, map[NAME := Child0(1, "y")], map["y" := NAME]),
             map[0 := At0("x", Failed), 1 := At0("y", Owned), 2 := At0("", Admitted)], map[1 := Running], map["y" := ChildOf(1)])
  }

  function S14(): State {
    Running0(Maps(map[NAME := "y"], map[NAME := Child0(1, "y")], {}, map[], map[]),
             map[0 := At0("x", Failed), 1 := At0("y", Published), 2 := At0("", Admitted)], map[1 := Running], map["y" := ChildOf(1)])
  }

  function S15(): State {
    Running0(Maps(map[NAME := "y"], map[NAME := Child0(1, "y")], {}, map[], map["z" := NAME]),
             map[0 := At0("x", Failed), 1 := At0("y", Published), 2 := At0("z", Reserved)], map[1 := Running], map["y" := ChildOf(1)])
  }

  function S16(): State {
    Running0(Maps(map[NAME := "y"], map[NAME := Child0(1, "y")], {}, map[NAME := Child0(2, "z")], map["z" := NAME]),
             map[0 := At0("x", Failed), 1 := At0("y", Published), 2 := At0("z", Waiting)], map[1 := Running, 2 := Running], map["y" := ChildOf(1)])
  }

  function S17(): State {
    Running0(Maps(map[NAME := "y"], map[NAME := Child0(1, "y")], {}, map[NAME := Child0(2, "z")], map["z" := NAME]),
             map[0 := At0("x", Failed), 1 := At0("y", Published), 2 := At0("z", Waiting)], map[1 := Running, 2 := Running], map["y" := ChildOf(1), "z" := ChildOf(2)])
  }

  function S18(): State {
    Running0(Maps(map[NAME := "y"], map[NAME := Child0(1, "y")], {}, map[NAME := Child0(2, "z")], map["z" := NAME]),
             map[0 := At0("x", Failed), 1 := At0("y", Published), 2 := At0("z", Ready)], map[1 := Running, 2 := Running], map["y" := ChildOf(1), "z" := ChildOf(2)])
  }

  function S19(): State {
    Running0(Maps(map[NAME := "y"], map[NAME := Child0(1, "y")], {}, map[NAME := Child0(2, "z")], map["z" := NAME]),
             map[0 := At0("x", Failed), 1 := At0("y", Published), 2 := At0("z", Owned)], map[1 := Running, 2 := Running], map["y" := ChildOf(1), "z" := ChildOf(2)])
  }

  function S20(): State {
    Running0(Maps(map[NAME := "z"], map[NAME := Child0(2, "z")], {}, map[], map[]),
             map[0 := At0("x", Failed), 1 := At0("y", Published), 2 := At0("z", Published)], map[1 := Running, 2 := Running], map["y" := ChildOf(1), "z" := ChildOf(2)])
  }

  lemma Steps0To2()
    ensures Leads(NoStatics(), S0(), Admit(0, NAME), S1())
    ensures Leads(NoStatics(), S1(), ReserveAddress(0, [Offer("x", None)]), S2())
  {
    NameIsKey();
    hide LookupName;
  }

  lemma Steps2To5()
    ensures Leads(NoStatics(), S2(), Launch(0, false), S3())
    ensures Leads(NoStatics(), S3(), Admit(1, NAME), S4())
    ensures Leads(NoStatics(), S4(), Unreserving(0), S5())
  {
    NameIsKey();
    hide LookupName;
  }

  lemma Steps5To7()
    ensures Leads(NoStatics(), S5(), Releasing(0), S6())
    ensures Leads(NoStatics(), S6(), Unmarking(0), S7())
  {
    NameIsKey();
    hide LookupName;
  }

  lemma Steps7To9()
    ensures Leads(NoStatics(), S7(), Admit(2, NAME), S8())
    ensures Leads(NoStatics(), S8(), ReserveAddress(1, [Offer("y", None)]), S9())
  {
    NameIsKey();
    hide LookupName;
  }

  lemma Steps9To11()
    ensures Leads(NoStatics(), S9(), Launch(1, true), S10())
    ensures Leads(NoStatics(), S10(), Bind(1, "y"), S11())
  {
    NameIsKey();
    hide LookupName;
  }

  lemma Steps11To13()
    ensures Leads(NoStatics(), S11(), EndWait(1, true), S12())
    ensures Leads(NoStatics(), S12(), CheckOwner(1, true), S13())
  {
    NameIsKey();
    hide LookupName;
  }

  lemma Steps13To14()
    ensures Leads(NoStatics(), S13(), TryPublish(1), S14())
  {
    NameIsKey();
    hide LookupName;
  }

  lemma Steps14To15()
    ensures Leads(NoStatics(), S14(), ReserveAddress(2, [Offer("z", None)]), S15())
  {
    NameIsKey();
    hide LookupName;
  }

  lemma Steps15To17()
    ensures Leads(NoStatics(), S15(), Launch(2, true), S16())
    ensures Leads(NoStatics(), S16(), Bind(2, "z"), S17())
  {
    NameIsKey();
    hide LookupName;
  }

  lemma Steps17To19()
    ensures Leads(NoStatics(), S17(), EndWait(2, true), S18())
    ensures Leads(NoStatics(), S18(), CheckOwner(2, true), S19())
  {
    NameIsKey();
    hide LookupName;
  }

  lemma Steps19To20()
    ensures Leads(NoStatics(), S19(), TryPublish(2), S20())
  {
    NameIsKey();
    hide LookupName;
  }

  lemma Walk(s: State, step: Step, t: State)
    requires Reachable(NoStatics(), s) && Leads(NoStatics(), s, step, t)
    ensures Reachable(NoStatics(), t)
  {
    hide Reachable, Enabled, Apply;
    ReachableNext(NoStatics(), s, step);
  }

  lemma FirstLeg()
    requires Reachable(NoStatics(), S0())
    ensures Reachable(NoStatics(), S5())
  {
    Steps0To2();
    Steps2To5();
    hide Reachable, Leads;
    Walk(S0(), Admit(0, NAME), S1());
    Walk(S1(), ReserveAddress(0, [Offer("x", None)]), S2());
    Walk(S2(), Launch(0, false), S3());
    Walk(S3(), Admit(1, NAME), S4());
    Walk(S4(), Unreserving(0), S5());
  }

  lemma SecondLeg()
    requires Reachable(NoStatics(), S5())
    ensures Reachable(NoStatics(), S9())
  {
    Steps5To7();
    Steps7To9();
    hide Reachable, Leads;
    Walk(S5(), Releasing(0), S6());
    Walk(S6(), Unmarking(0), S7());
    Walk(S7(), Admit(2, NAME), S8());
    Walk(S8(), ReserveAddress(1, [Offer("y", None)]), S9());
  }

  lemma ThirdLeg()
    requires Reachable(NoStatics(), S9())
    ensures Reachable(NoStatics(), S13())
  {
    Steps9To11();
    Steps11To13();
    hide Reachable, Leads;
    Walk(S9(), Launch(1, true), S10());
    Walk(S10(), Bind(1, "y"), S11());
    Walk(S11(), EndWait(1, true), S12());
    Walk(S12(), CheckOwner(1, true), S13());
  }

  lemma FourthLeg()
    requires Reachable(NoStatics(), S13())
    ensures Reachable(NoStatics(), S14())
  {
    Steps13To14();
    hide Reachable, Leads;
    Walk(S13(), TryPublish(1), S14());
  }

  lemma FifthLeg()
    requires Reachable(NoStatics(), S14())
    ensures Reachable(NoStatics(), S15())
  {
    Steps14To15();
    hide Reachable, Leads;
    Walk(S14(), ReserveAddress(2, [Offer("z", None)]), S15());
  }

  lemma SixthLeg()
    requires Reachable(NoStatics(), S15())
    ensures Reachable(NoStatics(), S17())
  {
    Steps15To17();
    hide Reachable, Leads;
    Walk(S15(), Launch(2, true), S16());
    Walk(S16(), Bind(2, "z"), S17());
  }

  lemma SeventhLeg()
    requires Reachable(NoStatics(), S17())
    ensures Reachable(NoStatics(), S19())
  {
    Steps17To19();
    hide Reachable, Leads;
    Walk(S17(), EndWait(2, true), S18());
    Walk(S18(), CheckOwner(2, true), S19());
  }

  lemma EighthLeg()
    requires Reachable(NoStatics(), S19())
    ensures Reachable(NoStatics(), S20())
  {
    Steps19To20();
    hide Reachable, Leads;
    Walk(S19(), TryPublish(2), S20());
  }

  lemma StartIsReachable()
    ensures Reachable(NoStatics(), S0())
  {
    var c := NoStatics();
    assert Legal(c, false, Init(c), []) && After(c, false, Init(c), []) == Init(c);
    assert Reachable(c, Init(c));
    assert Apply(c, Init(c), RaiseHealthy) == S0();
    hide Reachable;
    ReachableNext(c, Init(c), RaiseHealthy);
  }

  /** Without H a published child can be orphaned: it runs, its call has returned its
      address, yet neither map names it and no removal and no teardown will stop it. */
  lemma OrphanIsReachable()
    ensures exists s :: Reachable(NoStatics(), s) && At(s, 1, Published)
                        && Get(s.children, 1) == Some(Running) && !Covered(s, 1)
    ensures ValidConfig(NoStatics())
  {
    StartIsReachable();
    FirstLeg();
    SecondLeg();
    ThirdLeg();
    FourthLeg();
    FifthLeg();
    SixthLeg();
    SeventhLeg();
    EighthLeg();
    hide Reachable;
    var s := S20();
    assert At(s, 1, Published) && Get(s.children, 1) == Some(Running) && !Covered(s, 1);
  }

  // ----- the window itself, entered by a run that respects H -----

  lemma ReachableNextUnderH(c: Config, s: State, step: Step)
    requires ReachableUnderH(c, s) && Enabled(c, true, s, step) && Enabled(c, false, s, step)
    ensures ReachableUnderH(c, Apply(c, s, step))
  {
    var steps :| Legal(c, true, Init(c), steps) && s == After(c, true, Init(c), steps);
    hide Enabled, Apply, Init;
    Extend(c, true, Init(c), steps, step);
  }

  lemma WalkUnderH(c: Config, s: State, step: Step, t: State)
    requires ReachableUnderH(c, s) && Leads(c, s, step, t)
    requires step.Admit? ==> s.adds == map[]
    ensures ReachableUnderH(c, t)
  {
    assert Enabled(c, true, s, step);
    hide ReachableUnderH, Enabled, Apply;
    ReachableNextUnderH(c, s, step);
  }

  lemma StartIsReachableUnderH(c: Config)
    requires c.index == map[]
    ensures ReachableUnderH(c, S0())
  {
    assert Legal(c, true, Init(c), []) && After(c, true, Init(c), []) == Init(c);
    assert ReachableUnderH(c, Init(c));
    assert Apply(c, Init(c), RaiseHealthy) == S0();
    hide ReachableUnderH;
    ReachableNextUnderH(c, Init(c), RaiseHealthy);
  }

  /** The cleanup window is no dead hypothesis: after a single failed start the code
      admits the same name again while the first call is still cleaning up. */
  lemma WindowIsOpen()
    ensures exists s :: ReachableUnderH(NoStatics(), s) && Enabled(NoStatics(), false, s, Admit(1, NAME))
                        && !Quiet(s.adds, LookupName(NAME))
                        && 0 in s.adds && s.adds[0].key == LookupName(NAME) && s.adds[0].phase == DropReservation(Twice)
  {
    StartIsReachableUnderH(NoStatics());
    Steps0To2();
    Steps2To5();
    NameIsKey();
    var s := S3();
    assert s.adds[0].key == NAME && CleaningUp(s.adds[0].phase);
    assert !Quiet(s.adds, NAME);
    assert S0().adds == map[];
    assert Enabled(NoStatics(), false, s, Admit(1, NAME));
    hide ReachableUnderH, Leads, LookupName, Enabled, Quiet;
    WalkUnderH(NoStatics(), S0(), Admit(0, NAME), S1());
    WalkUnderH(NoStatics(), S1(), ReserveAddress(0, [Offer("x", None)]), S2());
    WalkUnderH(NoStatics(), S2(), Launch(0, false), S3());
  }
}
