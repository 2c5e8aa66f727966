/** Exactly which admissions can cost a child: those that meet an earlier add of the key with
    a second delete of the mark still ahead. That delete lets a third add in, two adds of
    one key are published one over the other, and the first child is alive, in no map, and
    nobody will stop it. */
module ProtocolLost {
  import opened Names
  import opened Aliases
  import opened Registry
  import opened Protocol
  import opened ProtocolInv
  import opened ProtocolChildren
  import opened ProtocolLedger
  import opened ProtocolShutdown
  import opened ProtocolTheorems
  import opened ProtocolWindow
  import opened ProtocolKeys
  import opened ProtocolOrphan

  ghost predicate Lost(s: State) {
    exists e :: e in s.children && e in s.adds && s.children[e] == Running && !Covered(s, e)
  }

  /** Some continuation, itself under the weaker rule, loses a child. */
  ghost predicate Loses(c: Config, s: State) {
    exists steps :: LegalK(c, s, steps) && Lost(AfterK(c, s, steps))
  }

  // ----- reaching one state from another -----

  ghost predicate CanReach(c: Config, s: State, t: State) {
    exists steps :: LegalK(c, s, steps) && AfterK(c, s, steps) == t
  }

  lemma {:induction false} ExtendK(c: Config, s: State, steps: seq<Step>, step: Step)
    requires LegalK(c, s, steps) && Allowed(c, AfterK(c, s, steps), step)
    ensures Enabled(c, false, AfterK(c, s, steps), step)
    ensures LegalK(c, s, steps + [step]) && AfterK(c, s, steps + [step]) == Apply(c, AfterK(c, s, steps), step)
    decreases |steps|
  {
    AllowedIsEnabled(c, AfterK(c, s, steps), step);
    hide Allowed, Enabled, Apply;
    var longer := steps + [step];
    if steps == [] {
      assert longer[0] == step && longer[1..] == [];
    } else {
      assert Enabled(c, false, s, steps[0]) by { AllowedIsEnabled(c, s, steps[0]); }
      ExtendK(c, Apply(c, s, steps[0]), steps[1..], step);
      assert longer[0] == steps[0] && longer[1..] == steps[1..] + [step];
    }
  }

  lemma ReachesItself(c: Config, s: State)
    ensures CanReach(c, s, s)
  {
    assert LegalK(c, s, []) && AfterK(c, s, []) == s;
  }

  lemma ReachNext(c: Config, s: State, t: State, step: Step)
    requires CanReach(c, s, t) && Allowed(c, t, step) && Enabled(c, false, t, step)
    ensures CanReach(c, s, Apply(c, t, step))
  {
    hide Allowed, Enabled, Apply;
    var steps :| LegalK(c, s, steps) && AfterK(c, s, steps) == t;
    ExtendK(c, s, steps, step);
  }

  lemma ReachLoses(c: Config, s: State, t: State)
    requires CanReach(c, s, t) && Lost(t)
    ensures Loses(c, s)
  {
  }

  // ----- one add from its admission to its publication -----

  /** Only this add moved; the run is up and nothing else of a stop happened. */
  predicate Carries(s: State, t: State, a: nat) {
    && t.run == s.run && t.healthy == s.healthy && t.owed == s.owed && t.unsignalled == s.unsignalled
    && a in s.adds && a in t.adds && t.adds == s.adds[a := t.adds[a]]
    && t.adds[a].key == s.adds[a].key && t.adds[a].name == s.adds[a].name
  }

  predicate FreeAddress(s: State, x: string) {
    Owners(s.maps, x) == {} && x !in s.listener
  }

  lemma RunReserve(c: Config, s: State, a: nat, x: string)
    requires At(s, a, Admitted) && FreeAddress(s, x)
    ensures var step := ReserveAddress(a, [Offer(x, None)]);
            Enabled(c, false, s, step)
            && var t := Apply(c, s, step);
               Carries(s, t, a) && At(t, a, Reserved) && t.adds[a].addr == x
               && t.maps.dynamic == s.maps.dynamic && t.maps.pending == s.maps.pending
               && t.children == s.children && t.listener == s.listener
  {
    assert Accepts(s.maps, s.adds[a].key, Offer(x, None));
    hide Owners, Range;
  }

  lemma RunLaunch(c: Config, s: State, a: nat)
    requires At(s, a, Reserved) && s.healthy
    ensures var step := Launch(a, true);
            Enabled(c, false, s, step)
            && var t := Apply(c, s, step);
               Carries(s, t, a) && At(t, a, Waiting) && t.adds[a].addr == s.adds[a].addr && t.adds[a].token == s.adds[a].token
               && t.maps.dynamic == s.maps.dynamic && t.maps.pending == s.maps.pending[s.adds[a].key := ProcOf(a, s.adds[a])]
               && t.children == s.children[a := Running] && t.listener == s.listener
  {
  }

  lemma RunBind(c: Config, s: State, a: nat, x: string)
    requires a in s.adds && ChildOfAdd(s, a) == Some(Running) && x !in s.listener
    ensures var step := Bind(a, x);
            Enabled(c, false, s, step)
            && var t := Apply(c, s, step);
               Carries(s, t, a) && t.adds == s.adds && t.maps == s.maps && t.children == s.children
               && t.listener == s.listener[x := ChildOf(a)]
  {
  }

  lemma RunWait(c: Config, s: State, a: nat)
    requires At(s, a, Waiting) && ChildOfAdd(s, a) == Some(Running)
    ensures var step := EndWait(a, true);
            Enabled(c, false, s, step)
            && var t := Apply(c, s, step);
               Carries(s, t, a) && At(t, a, Ready) && t.adds[a].addr == s.adds[a].addr && t.adds[a].token == s.adds[a].token
               && t.maps == s.maps && t.children == s.children && t.listener == s.listener
  {
  }

  lemma RunCheck(c: Config, s: State, a: nat)
    requires At(s, a, Ready) && Get(s.listener, s.adds[a].addr) == Some(ChildOf(a))
    ensures var step := CheckOwner(a, true);
            Enabled(c, false, s, step)
            && var t := Apply(c, s, step);
               Carries(s, t, a) && At(t, a, Owned) && t.adds[a].addr == s.adds[a].addr && t.adds[a].token == s.adds[a].token
               && t.maps == s.maps && t.children == s.children && t.listener == s.listener
  {
  }

  lemma RunPublish(c: Config, s: State, a: nat)
    requires At(s, a, Owned) && s.healthy && InPendingMap(s, a, s.adds[a])
    ensures var step := TryPublish(a);
            Enabled(c, false, s, step)
            && var t := Apply(c, s, step);
               Carries(s, t, a) && At(t, a, Published)
               && t.maps.dynamic == s.maps.dynamic[s.adds[a].key := ProcOf(a, t.adds[a])]
               && t.maps.pending == s.maps.pending - {s.adds[a].key}
               && t.children == s.children && t.listener == s.listener
  {
    hide Store;
  }

  lemma StartRun(c: Config, origin: State, s: State, a: nat, x: string) returns (t: State)
    requires CanReach(c, origin, s) && s.healthy && At(s, a, Admitted) && FreeAddress(s, x)
    ensures CanReach(c, origin, t) && Carries(s, t, a) && At(t, a, Waiting) && t.adds[a].addr == x
    ensures t.maps.dynamic == s.maps.dynamic && t.maps.pending == s.maps.pending[s.adds[a].key := ProcOf(a, t.adds[a])]
    ensures t.children == s.children[a := Running] && t.listener == s.listener[x := ChildOf(a)]
  {
    hide CanReach, Enabled, Apply, Owners;
    RunReserve(c, s, a, x);
    ReachNext(c, origin, s, ReserveAddress(a, [Offer(x, None)]));
    var s1 := Apply(c, s, ReserveAddress(a, [Offer(x, None)]));
    RunLaunch(c, s1, a);
    ReachNext(c, origin, s1, Launch(a, true));
    var s2 := Apply(c, s1, Launch(a, true));
    RunBind(c, s2, a, x);
    ReachNext(c, origin, s2, Bind(a, x));
    t := Apply(c, s2, Bind(a, x));
  }

  /** From admission to publication, over whatever `dynamic` holds under the key. */
  lemma PublishRun(c: Config, origin: State, s: State, a: nat, x: string) returns (t: State)
    requires CanReach(c, origin, s) && s.healthy && At(s, a, Admitted) && FreeAddress(s, x)
    ensures CanReach(c, origin, t) && Carries(s, t, a) && At(t, a, Published)
    ensures t.maps.dynamic == s.maps.dynamic[s.adds[a].key := ProcOf(a, t.adds[a])]
    ensures t.maps.pending == s.maps.pending - {s.adds[a].key}
    ensures t.children == s.children[a := Running]
  {
    hide CanReach, Enabled, Apply, FreeAddress;
    var s3 := StartRun(c, origin, s, a, x);
    RunWait(c, s3, a);
    ReachNext(c, origin, s3, EndWait(a, true));
    var s4 := Apply(c, s3, EndWait(a, true));
    RunCheck(c, s4, a);
    ReachNext(c, origin, s4, CheckOwner(a, true));
    var s5 := Apply(c, s4, CheckOwner(a, true));
    RunPublish(c, s5, a);
    ReachNext(c, origin, s5, TryPublish(a));
    t := Apply(c, s5, TryPublish(a));
  }

  // ----- the second delete -----

  /** Only this add's phase and at most the mark of its key changed. */
  predicate Quietly(s: State, t: State, a: nat) {
    && Carries(s, t, a) && t.children == s.children
    && t.maps.backends == s.maps.backends && t.maps.dynamic == s.maps.dynamic && t.maps.pending == s.maps.pending
  }

  lemma RunUnreserving(c: Config, s: State, a: nat)
    requires At(s, a, DropReservation(Twice))
    ensures Enabled(c, false, s, Unreserving(a))
    ensures var t := Apply(c, s, Unreserving(a));
            Quietly(s, t, a) && t.maps.adding == s.maps.adding && At(t, a, ReturnAddress(Twice))
  {
  }

  lemma RunReleasing(c: Config, s: State, a: nat)
    requires At(s, a, ReturnAddress(Twice))
    ensures Enabled(c, false, s, Releasing(a))
    ensures var t := Apply(c, s, Releasing(a));
            Quietly(s, t, a) && t.maps.adding == s.maps.adding && At(t, a, DropMark(Twice))
  {
  }

  lemma RunUnmarking(c: Config, s: State, a: nat)
    requires a in s.adds && s.adds[a].phase.DropMark?
    ensures Enabled(c, false, s, Unmarking(a))
    ensures var t := Apply(c, s, Unmarking(a));
            Quietly(s, t, a) && t.maps.adding == s.maps.adding - {s.adds[a].key} && At(t, a, Failed)
  {
  }

  lemma EraseRun(c: Config, origin: State, s: State, a: nat) returns (t: State)
    requires CanReach(c, origin, s) && a in s.adds && Erasing(s.adds[a].phase)
    ensures CanReach(c, origin, t) && Quietly(s, t, a) && At(t, a, Failed)
    ensures t.maps.adding == s.maps.adding - {s.adds[a].key}
  {
    hide CanReach, Enabled, Apply;
    t := s;
    if t.adds[a].phase.DropReservation? {
      RunUnreserving(c, t, a);
      ReachNext(c, origin, t, Unreserving(a));
      t := Apply(c, t, Unreserving(a));
    }
    if t.adds[a].phase.ReturnAddress? {
      RunReleasing(c, t, a);
      ReachNext(c, origin, t, Releasing(a));
      t := Apply(c, t, Releasing(a));
    }
    RunUnmarking(c, t, a);
    ReachNext(c, origin, t, Unmarking(a));
    t := Apply(c, t, Unmarking(a));
  }

  // ----- the loss -----

  lemma FreshAddress(s: State) returns (x: string)
    ensures FreeAddress(s, x)
  {
    var used := s.maps.backends.Values + (set k | k in s.maps.pending :: s.maps.pending[k].addr)
                + s.maps.reserving.Keys + s.listener.Keys;
    x := FreshName(used);
    assert PublishedAt(s.maps.backends, x) == {} by {
      assert forall n :: n in s.maps.backends ==> s.maps.backends[n] in used;
    }
    assert PendingAt(s.maps.pending, x) == {} by {
      assert forall k :: k in s.maps.pending ==> s.maps.pending[k].addr in used;
    }
  }

  /** Two admitted adds of one key, whatever the mark says: the first is published and then
      overwritten by the second. */
  lemma TwoOfAKeyLose(c: Config, origin: State, s: State, b: nat, d: nat)
    requires CanReach(c, origin, s) && s.healthy && At(s, b, Admitted) && At(s, d, Admitted) && b != d
    requires s.adds[b].key == s.adds[d].key && b !in s.owed && b !in s.unsignalled
    ensures Loses(c, origin)
  {
    hide CanReach, Owners;
    var x := FreshAddress(s);
    var t := PublishRun(c, origin, s, b, x);
    var y := FreshAddress(t);
    var u := PublishRun(c, origin, t, d, y);
    assert u.adds[b] == t.adds[b] && u.children[b] == Running && !Covered(u, b);
    ReachLoses(c, origin, u);
  }

  lemma AdmitAgain(c: Config, s: State, d: nat, name: string)
    requires s.healthy && d !in s.adds && Unclaimed(s.maps, LookupName(name)) && Unerased(s.adds, LookupName(name))
    ensures Allowed(c, s, Admit(d, name)) && Enabled(c, false, s, Admit(d, name))
    ensures var t := Apply(c, s, Admit(d, name));
            && t.healthy == s.healthy && t.owed == s.owed && t.unsignalled == s.unsignalled
            && t.adds == s.adds[d := Add(LookupName(name), name, "", None, Admitted)]
  {
  }

  /** The facts at the moment of the bad admission, `t` being the state after it. */
  predicate Doomed(t: State, a: nat, b: nat, name: string) {
    && t.healthy && At(t, b, Admitted) && t.adds[b].key == LookupName(name) && b !in t.owed && b !in t.unsignalled
    && a in t.adds && a != b && t.adds[a].key == LookupName(name) && Erasing(t.adds[a].phase)
    && LookupName(name) !in t.maps.backends && LookupName(name) !in t.maps.dynamic && LookupName(name) !in t.maps.pending
    && forall e :: e in t.adds && e != a && t.adds[e].key == LookupName(name) ==> !Erasing(t.adds[e].phase)
  }

  lemma DoomedLoses(c: Config, t: State, a: nat, b: nat, name: string)
    requires Doomed(t, a, b, name)
    ensures Loses(c, t)
  {
    hide CanReach, Enabled, Apply, Loses, LookupName;
    ReachesItself(c, t);
    var u := EraseRun(c, t, t, a);
    assert Unclaimed(u.maps, LookupName(name)) && Unerased(u.adds, LookupName(name));
    assert At(u, b, Admitted) && u.adds[b] == t.adds[b];
    var d := FreshId(u.adds.Keys);
    AdmitAgain(c, u, d, name);
    ReachNext(c, t, u, Admit(d, name));
    TwoOfAKeyLose(c, t, Apply(c, u, Admit(d, name)), b, d);
  }

  lemma AdmissionDooms(c: Config, s: State, a: nat, b: nat, name: string)
    requires Keyed(s) && FlagIsUp(s) && Ledger(s) && s.unsignalled <= s.adds.Keys && Enabled(c, false, s, Admit(b, name))
    requires a in s.adds && s.adds[a].key == LookupName(name) && Erasing(s.adds[a].phase)
    ensures Doomed(Apply(c, s, Admit(b, name)), a, b, name)
  {
    var t := Apply(c, s, Admit(b, name));
    assert !s.run.Torn?;
    assert b !in s.owed && b !in s.unsignalled;
    forall e | e in t.adds && e != a && t.adds[e].key == LookupName(name) ensures !Erasing(t.adds[e].phase) {
      assert !KeyRivals(s.adds, a, e);
    }
    hide LookupName, Ledger, Keyed;
  }

  lemma NobodyLostYet(c: Config, s: State, b: nat, name: string)
    requires NoOrphan(s) && Enabled(c, false, s, Admit(b, name))
    ensures !Lost(Apply(c, s, Admit(b, name)))
  {
    var t := Apply(c, s, Admit(b, name));
    forall e | e in t.children && e in t.adds && t.children[e] == Running ensures Covered(t, e) {
      assert e in s.adds && ChildOk(s, e);
    }
  }

  lemma TrackedNeverLoses(c: Config, s: State)
    requires Tracked(c, s)
    ensures !Loses(c, s)
  {
    forall steps | LegalK(c, s, steps) ensures !Lost(AfterK(c, s, steps)) {
      TrackedKept(c, s, steps);
      var t := AfterK(c, s, steps);
      forall e | e in t.children && e in t.adds && t.children[e] == Running ensures Covered(t, e) {
        assert ChildOk(t, e);
      }
    }
  }

  /** Admitting a key can cost a child, in some continuation, if and only if an earlier add
      of the key has a second delete of the mark ahead of it. The admission itself loses
      nobody. */
  lemma AdmissionLosesChildIff(c: Config, s: State, b: nat, name: string)
    requires ValidConfig(c) && ReachableK(c, s) && Enabled(c, false, s, Admit(b, name))
    ensures Loses(c, Apply(c, s, Admit(b, name))) <==> !Unerased(s.adds, LookupName(name))
    ensures !Lost(Apply(c, s, Admit(b, name)))
  {
    ReachableTracked(c, s);
    AlwaysParts(c, s);
    hide Always, Loses, Lost, LookupName, ReachableK;
    NobodyLostYet(c, s, b, name);
    if Unerased(s.adds, LookupName(name)) {
      hide Keyed, NoOrphan, Ledger, FlagIsUp;
      assert Allowed(c, s, Admit(b, name));
      hide Enabled, Apply, Tracked, Allowed;
      TrackedStep(c, s, Admit(b, name));
      TrackedNeverLoses(c, Apply(c, s, Admit(b, name)));
    } else {
      var a :| a in s.adds && s.adds[a].key == LookupName(name) && Erasing(s.adds[a].phase);
      hide NoOrphan;
      AdmissionDooms(c, s, a, b, name);
      hide Enabled, Apply, Keyed, Ledger, Doomed;
      DoomedLoses(c, Apply(c, s, Admit(b, name)), a, b, name);
    }
  }

  /** Such an admission is within reach: the failed start of `ProtocolOrphan.WindowIsOpen`
      has its second delete ahead of it, and from there a child can be lost. */
  lemma LossIsReachable()
    ensures exists s :: ReachableK(NoStatics(), s) && Enabled(NoStatics(), false, s, Admit(1, NAME))
                        && Loses(NoStatics(), Apply(NoStatics(), s, Admit(1, NAME)))
  {
    var c := NoStatics();
    WindowIsOpen();
    var s :| ReachableUnderH(c, s) && Enabled(c, false, s, Admit(1, NAME)) && !Quiet(s.adds, LookupName(NAME))
             && 0 in s.adds && s.adds[0].key == LookupName(NAME) && s.adds[0].phase == DropReservation(Twice);
    assert ReachableK(c, s) by {
      var steps :| Legal(c, true, Init(c), steps) && s == After(c, true, Init(c), steps);
      hide Init;
      HRunIsAllowed(c, Init(c), steps);
    }
    assert ValidConfig(c);
    assert !Unerased(s.adds, LookupName(NAME));
    hide ReachableK, ReachableUnderH, Loses, Enabled, Apply;
    AdmissionLosesChildIff(c, s, 1, NAME);
  }
}
