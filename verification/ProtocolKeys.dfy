/** What it takes to lose a child. Hypothesis H also protects addresses; to keep every child
    accounted for less is enough: no add of a key is admitted while an earlier one still has
    a second delete of the admission mark ahead of it. */
module ProtocolKeys {
  import opened Names
  import opened Aliases
  import opened Registry
  import opened Protocol
  import opened ProtocolInv
  import opened ProtocolChildren
  import opened ProtocolLedger
  import opened ProtocolShutdown
  import opened ProtocolTheorems

  /** The add will delete a mark that is not its own any more. */
  predicate Erasing(p: Phase) {
    ((p.DropReservation? || p.ReturnAddress?) && p.mark.Twice?) || (p.DropMark? && !p.mark.Held?)
  }

  predicate Unerased(adds: Adds, key: string) {
    forall a :: a in adds && adds[a].key == key ==> !Erasing(adds[a].phase)
  }

  predicate OwnsKey(p: Phase) {
    Marked(p) || InPending(p) || Erasing(p)
  }

  predicate KeyRivals(adds: Adds, a: nat, b: nat) {
    a in adds && b in adds && a != b && adds[a].key == adds[b].key && OwnsKey(adds[a].phase) && OwnsKey(adds[b].phase)
  }

  predicate KeyRecorded(m: Maps, a: nat, d: Add) {
    && (Marked(d.phase) ==> d.key in m.adding)
    && (InPending(d.phase) ==> Get(m.pending, d.key) == Some(ProcOf(a, d)))
    && (OwnsKey(d.phase) ==> d.key !in m.dynamic)
  }

  ghost predicate KeyBooks(m: Maps, adds: Adds) {
    && (forall a, b :: !KeyRivals(adds, a, b))
    && (forall a :: a in adds ==> KeyRecorded(m, a, adds[a]))
  }

  ghost predicate Keyed(s: State) {
    if s.run.Torn? then s.maps.dynamic == map[] && s.maps.pending == map[] else KeyBooks(s.maps, s.adds)
  }

  // ----- how the books move -----

  /** Only the entries of one key change, as its one owner moves. */
  lemma OwnerMoves(m: Maps, m': Maps, adds: Adds, a: nat, d: Add)
    requires KeyBooks(m, adds) && a in adds && OwnsKey(adds[a].phase) && d.key == adds[a].key && KeyRecorded(m', a, d)
    requires forall k :: k != d.key ==> (k in m.adding ==> k in m'.adding) && Get(m'.pending, k) == Get(m.pending, k)
                                        && (k in m'.dynamic ==> k in m.dynamic)
    ensures KeyBooks(m', adds[a := d])
  {
    var adds' := adds[a := d];
    forall b | b in adds' ensures KeyRecorded(m', b, adds'[b]) {
      if b != a {
        assert KeyRecorded(m, b, adds[b]) && !KeyRivals(adds, a, b);
      }
    }
    forall x, y ensures !KeyRivals(adds', x, y) {
      assert !KeyRivals(adds, x, y);
    }
  }

  predicate SameKeys(m: Maps, m': Maps) {
    m'.adding == m.adding && m'.pending == m.pending && m'.dynamic == m.dynamic
  }

  /** An add that does not own its key, or owns it as before, and touches none of the three maps. */
  lemma StandsBy(m: Maps, m': Maps, adds: Adds, a: nat, d: Add)
    requires KeyBooks(m, adds) && a in adds && d.key == adds[a].key && SameKeys(m, m')
    requires OwnsKey(d.phase) ==> OwnsKey(adds[a].phase)
    requires KeyRecorded(m', a, d)
    ensures KeyBooks(m', adds[a := d])
  {
    var adds' := adds[a := d];
    forall b | b in adds' ensures KeyRecorded(m', b, adds'[b]) {
      assert b != a ==> KeyRecorded(m, b, adds[b]);
    }
    forall x, y ensures !KeyRivals(adds', x, y) {
      assert !KeyRivals(adds, x, y);
    }
  }

  lemma KeysLose(m: Maps, m': Maps, adds: Adds)
    requires KeyBooks(m, adds) && m'.adding == m.adding && m'.pending == m.pending && m'.dynamic.Keys <= m.dynamic.Keys
    ensures KeyBooks(m', adds)
  {
    forall b | b in adds ensures KeyRecorded(m', b, adds[b]) {
      assert KeyRecorded(m, b, adds[b]);
    }
  }

  // ----- step by step -----

  lemma KeyedAdmit(c: Config, s: State, a: nat, name: string)
    requires Keyed(s) && FlagIsUp(s) && Enabled(c, false, s, Admit(a, name)) && Unerased(s.adds, LookupName(name))
    ensures Keyed(Apply(c, s, Admit(a, name)))
  {
    var t, key := Apply(c, s, Admit(a, name)), LookupName(name);
    assert !s.run.Torn?;
    forall b | b in t.adds ensures KeyRecorded(t.maps, b, t.adds[b]) {
      assert b != a ==> KeyRecorded(s.maps, b, s.adds[b]);
    }
    forall x, y ensures !KeyRivals(t.adds, x, y) {
      assert !KeyRivals(s.adds, x, y);
      assert forall b :: b in s.adds && s.adds[b].key == key ==> KeyRecorded(s.maps, b, s.adds[b]) && !OwnsKey(s.adds[b].phase);
    }
  }

  lemma KeyedReserve(s: State, t: State, a: nat)
    requires Keyed(s) && At(s, a, Admitted) && a in t.adds && t.adds == s.adds[a := t.adds[a]] && t.run == s.run
    requires t.adds[a].key == s.adds[a].key && (t.adds[a].phase.Reserved? || t.adds[a].phase == DropMark(Held))
    requires SameKeys(s.maps, t.maps)
    ensures Keyed(t)
  {
    if !s.run.Torn? {
      assert KeyRecorded(s.maps, a, s.adds[a]);
      StandsBy(s.maps, t.maps, s.adds, a, t.adds[a]);
    }
  }

  lemma ReserveShape(c: Config, s: State, a: nat, answers: seq<Answer>)
    requires At(s, a, Admitted) && answers != []
    ensures var t := ReserveEffect(c, s, a, answers);
            && a in t.adds && t.adds == s.adds[a := t.adds[a]] && t.run == s.run && SameKeys(s.maps, t.maps)
            && t.adds[a].key == s.adds[a].key && (t.adds[a].phase.Reserved? || t.adds[a].phase == DropMark(Held))
  {
    hide Accepts, Range, TokensTaken;
  }

  /** A change of phase that keeps what the books say of the add. */
  predicate PhaseOnly(p: Phase, q: Phase) {
    (Marked(q) ==> Marked(p)) && (InPending(q) ==> InPending(p)) && (OwnsKey(q) ==> OwnsKey(p))
  }

  lemma KeyedPhase(s: State, t: State, a: nat, p: Phase)
    requires Keyed(s) && a in s.adds && PhaseOnly(s.adds[a].phase, p)
    requires t.adds == s.adds[a := s.adds[a].(phase := p)] && t.run == s.run && SameKeys(s.maps, t.maps)
    ensures Keyed(t)
  {
    if !s.run.Torn? {
      assert KeyRecorded(s.maps, a, s.adds[a]);
      StandsBy(s.maps, t.maps, s.adds, a, t.adds[a]);
    }
  }

  lemma KeyedLaunch(s: State, a: nat, spawned: bool)
    requires Keyed(s) && FlagIsUp(s) && At(s, a, Reserved)
    ensures Keyed(LaunchEffect(s, a, spawned))
  {
    var t := LaunchEffect(s, a, spawned);
    if !s.run.Torn? {
      assert KeyRecorded(s.maps, a, s.adds[a]);
      OwnerMoves(s.maps, t.maps, s.adds, a, t.adds[a]);
    }
  }

  lemma KeyedPublish(s: State, a: nat)
    requires Keyed(s) && FlagIsUp(s) && At(s, a, Owned)
    ensures Keyed(PublishEffect(s, a))
  {
    var t := PublishEffect(s, a);
    hide Store;
    if !s.run.Torn? {
      assert KeyRecorded(s.maps, a, s.adds[a]);
      OwnerMoves(s.maps, t.maps, s.adds, a, t.adds[a]);
    }
  }

  lemma KeyedLeave(s: State, a: nat)
    requires Keyed(s) && At(s, a, LeavePending)
    ensures var d := s.adds[a];
            Keyed(SetPhase(s.(maps := Registry.DropPending(s.maps, d.key, ProcOf(a, d))), a, DropReservation(Gone)))
  {
    var t := SetPhase(s.(maps := Registry.DropPending(s.maps, s.adds[a].key, ProcOf(a, s.adds[a]))), a, DropReservation(Gone));
    if !s.run.Torn? {
      assert KeyRecorded(s.maps, a, s.adds[a]);
      OwnerMoves(s.maps, t.maps, s.adds, a, t.adds[a]);
    }
  }

  lemma KeyedUnmark(s: State, a: nat)
    requires Keyed(s) && a in s.adds && s.adds[a].phase.DropMark?
    ensures Keyed(SetPhase(s.(maps := Unmark(s.maps, s.adds[a].key)), a, Failed))
  {
    var t := SetPhase(s.(maps := Unmark(s.maps, s.adds[a].key)), a, Failed);
    if !s.run.Torn? {
      OwnerMoves(s.maps, t.maps, s.adds, a, t.adds[a]);
    }
  }

  lemma KeyedLose(s: State, t: State)
    requires Keyed(s) && t.adds == s.adds && t.run == s.run && t.maps.adding == s.maps.adding
    requires t.maps.pending == s.maps.pending && t.maps.dynamic.Keys <= s.maps.dynamic.Keys
    ensures Keyed(t)
  {
    if !s.run.Torn? {
      KeysLose(s.maps, t.maps, s.adds);
    }
  }

  lemma KeyedStop(c: Config, s: State, a: nat, signalled: bool)
    requires Keyed(s) && Enabled(c, false, s, FinishOwnStop(a, signalled))
    ensures Keyed(Apply(c, s, FinishOwnStop(a, signalled)))
  {
    var t := Apply(c, s, FinishOwnStop(a, signalled));
    ReleaseFrame(s, s.adds[a].token);
    assert t.adds == s.adds[a := s.adds[a].(phase := t.adds[a].phase)] && t.run == s.run && t.maps == s.maps;
    hide Release, GiveUp, Apply, Keyed;
    KeyedPhase(s, t, a, t.adds[a].phase);
  }

  lemma KeyedReleasing(c: Config, s: State, a: nat)
    requires Keyed(s) && Enabled(c, false, s, Releasing(a))
    ensures Keyed(Apply(c, s, Releasing(a)))
  {
    var t := Apply(c, s, Releasing(a));
    ReleaseFrame(s, s.adds[a].token);
    assert t.adds == s.adds[a := s.adds[a].(phase := t.adds[a].phase)] && t.run == s.run && t.maps == s.maps;
    hide Release, Apply, Keyed;
    KeyedPhase(s, t, a, t.adds[a].phase);
  }

  lemma KeyedUnreserving(c: Config, s: State, a: nat)
    requires Keyed(s) && Enabled(c, false, s, Unreserving(a))
    ensures Keyed(Apply(c, s, Unreserving(a)))
  {
    var t := Apply(c, s, Unreserving(a));
    hide Keyed;
    KeyedPhase(s, t, a, ReturnAddress(s.adds[a].phase.mark));
  }

  lemma KeyedWait(c: Config, s: State, step: Step)
    requires Keyed(s) && Enabled(c, false, s, step) && (step.FailConfig? || step.EndWait? || step.CheckOwner?)
    ensures Keyed(Apply(c, s, step))
  {
    var t := Apply(c, s, step);
    hide Keyed;
    KeyedPhase(s, t, step.a, t.adds[step.a].phase);
  }

  lemma KeyedRemove(c: Config, s: State, spelling: string)
    requires Keyed(s) && Enabled(c, false, s, Remove(spelling))
    ensures Keyed(Apply(c, s, Remove(spelling)))
  {
    hide Keyed, LookupName;
    KeyedLose(s, Apply(c, s, Remove(spelling)));
  }

  lemma KeyedWatch(c: Config, s: State, a: nat)
    requires Keyed(s) && Entries(s.maps, s.adds) && Enabled(c, false, s, WatchExit(a))
    ensures Keyed(Apply(c, s, WatchExit(a)))
  {
    assert !InPendingMap(s, a, s.adds[a]);
    hide Keyed, Entries;
    KeyedLose(s, Apply(c, s, WatchExit(a)));
  }

  lemma KeyedFlag(c: Config, s: State, step: Step)
    requires Keyed(s) && RuntimeFlag(step) && Enabled(c, false, s, step)
    ensures Keyed(Apply(c, s, step))
  {
    hide KeyBooks;
  }

  lemma KeyedOutside(c: Config, s: State, step: Step)
    requires Keyed(s) && Outside(step) && Enabled(c, false, s, step)
    ensures Keyed(Apply(c, s, step))
  {
    OutsideFrame(c, s, step);
    hide KeyBooks, Apply, Enabled;
  }

  lemma KeyedAddStep(c: Config, s: State, step: Step)
    requires Keyed(s) && FlagIsUp(s) && Enabled(c, false, s, step)
    requires step.ReserveAddress? || step.Launch? || step.TryPublish? || step.LeavePendingMap? || step.Unmarking?
    ensures Keyed(Apply(c, s, step))
  {
    hide Keyed, ReserveEffect, LaunchEffect, PublishEffect;
    match step
    case ReserveAddress(a, answers) =>
      ReserveShape(c, s, a, answers);
      KeyedReserve(s, ReserveEffect(c, s, a, answers), a);
    case Launch(a, spawned) => KeyedLaunch(s, a, spawned);
    case TryPublish(a) => KeyedPublish(s, a);
    case LeavePendingMap(a) => KeyedLeave(s, a);
    case Unmarking(a) => KeyedUnmark(s, a);
  }

  lemma KeyedFinish(c: Config, s: State, a: nat, signalled: bool)
    requires Keyed(s) && Enabled(c, false, s, FinishStop(a, signalled))
    ensures Keyed(Apply(c, s, FinishStop(a, signalled)))
  {
    FinishStopShape(c, s, a, signalled);
    FinishStopRun(c, s, a, signalled);
    hide Keyed, Apply, Enabled;
    KeyedLose(s, Apply(c, s, FinishStop(a, signalled)));
  }

  lemma FinishStopRun(c: Config, s: State, a: nat, signalled: bool)
    requires Enabled(c, false, s, FinishStop(a, signalled))
    ensures Apply(c, s, FinishStop(a, signalled)).run == s.run
  {
  }

  lemma KeyedTeardown(c: Config, s: State)
    requires Enabled(c, false, s, Teardown)
    ensures Keyed(Apply(c, s, Teardown))
  {
    TeardownFrame(c, s);
  }

  // ----- runs in which every admission finds its key unerased -----

  /** The weaker rule: stronger than the code, weaker than H. */
  predicate Allowed(c: Config, s: State, step: Step) {
    Enabled(c, false, s, step) && (step.Admit? ==> Unerased(s.adds, LookupName(step.name)))
  }

  lemma KeyedStep(c: Config, s: State, step: Step)
    requires Keyed(s) && FlagIsUp(s) && Entries(s.maps, s.adds) && Allowed(c, s, step)
    ensures Keyed(Apply(c, s, step))
  {
    hide Keyed, FlagIsUp, Entries, Enabled, Apply, Unerased;
    match step
    case Teardown => KeyedTeardown(c, s);
    case Admit(a, name) => KeyedAdmit(c, s, a, name);
    case FinishOwnStop(a, signalled) => KeyedStop(c, s, a, signalled);
    case Releasing(a) => KeyedReleasing(c, s, a);
    case Unreserving(a) => KeyedUnreserving(c, s, a);
    case Remove(spelling) => KeyedRemove(c, s, spelling);
    case WatchExit(a) => KeyedWatch(c, s, a);
    case FinishStop(a, signalled) => KeyedFinish(c, s, a, signalled);
    case _ =>
      if step.FailConfig? || step.EndWait? || step.CheckOwner? {
        KeyedWait(c, s, step);
      } else if RuntimeFlag(step) {
        KeyedFlag(c, s, step);
      } else if Outside(step) {
        KeyedOutside(c, s, step);
      } else {
        KeyedAddStep(c, s, step);
      }
  }

  lemma KeyedPlaceFree(s: State, step: Step)
    requires Keyed(s) && FlagIsUp(s) && Entries(s.maps, s.adds)
    ensures PlaceFree(s, step)
  {
    if (step.Launch? && At(s, step.a, Reserved) && s.healthy) || (step.TryPublish? && At(s, step.a, Owned) && s.healthy) {
      var key := s.adds[step.a].key;
      assert KeyRecorded(s.maps, step.a, s.adds[step.a]);
      if step.Launch? && key in s.maps.pending {
        assert KeyRivals(s.adds, step.a, s.maps.pending[key].id);
      }
    }
  }

  ghost predicate Tracked(c: Config, s: State) {
    Always(c, s) && Keyed(s) && NoOrphan(s) && s.unsignalled <= s.adds.Keys
  }

  lemma AddUnsignalled(c: Config, s: State, step: Step)
    requires s.unsignalled <= s.adds.Keys && Enabled(c, false, s, step)
    requires Advances(step) || step.ReserveAddress? || BacksOut(step)
    ensures Apply(c, s, step).unsignalled <= Apply(c, s, step).adds.Keys
  {
    hide Accepts, Range, TokensTaken, ReserveRun, Publish, GoPending, DropPending, LookupName;
  }

  lemma OtherUnsignalled(c: Config, s: State, step: Step)
    requires s.unsignalled <= s.adds.Keys && Enabled(c, false, s, step)
    requires RuntimeFlag(step) || Outside(step) || TakesOut(step)
    ensures Apply(c, s, step).unsignalled <= Apply(c, s, step).adds.Keys
  {
    hide TakeAll, Taken, Unpublish, DropPending, LookupName;
  }

  lemma TrackedStep(c: Config, s: State, step: Step)
    requires Tracked(c, s) && Allowed(c, s, step)
    ensures Tracked(c, Apply(c, s, step))
  {
    OneStep(c, s, step);
    AlwaysParts(c, s);
    hide Always, Keyed, NoOrphan, Enabled, Apply, Unerased, PlaceFree, Entries, FlagIsUp;
    if Advances(step) || step.ReserveAddress? || BacksOut(step) {
      AddUnsignalled(c, s, step);
    } else {
      OtherUnsignalled(c, s, step);
    }
    AlwaysKept(c, s, [step]);
    KeyedStep(c, s, step);
    KeyedPlaceFree(s, step);
    ChildrenKept(c, s, step);
  }

  lemma AlwaysParts(c: Config, s: State)
    requires Always(c, s)
    ensures Entries(s.maps, s.adds) && FlagIsUp(s) && Ledger(s)
  {
  }

  ghost predicate LegalK(c: Config, s: State, steps: seq<Step>)
    decreases |steps|
  {
    steps != [] ==> Allowed(c, s, steps[0]) && LegalK(c, Apply(c, s, steps[0]), steps[1..])
  }

  ghost function AfterK(c: Config, s: State, steps: seq<Step>): State
    requires LegalK(c, s, steps)
    decreases |steps|
  {
    if steps == [] then s else AfterK(c, Apply(c, s, steps[0]), steps[1..])
  }

  lemma {:induction false} TrackedKept(c: Config, s: State, steps: seq<Step>)
    requires Tracked(c, s) && LegalK(c, s, steps)
    ensures Tracked(c, AfterK(c, s, steps))
    decreases |steps|
  {
    if steps != [] {
      hide Tracked, Allowed;
      TrackedStep(c, s, steps[0]);
      assert Enabled(c, false, s, steps[0]) by { AllowedIsEnabled(c, s, steps[0]); }
      TrackedKept(c, Apply(c, s, steps[0]), steps[1..]);
    }
  }

  lemma AllowedIsEnabled(c: Config, s: State, step: Step)
    requires Allowed(c, s, step)
    ensures Enabled(c, false, s, step)
  {
  }

  lemma InitTracked(c: Config)
    requires ValidConfig(c)
    ensures Tracked(c, Init(c))
  {
    InitHolds(c);
    assert KeyBooks(Init(c).maps, Init(c).adds);
  }

  ghost predicate ReachableK(c: Config, s: State) {
    exists steps :: LegalK(c, Init(c), steps) && s == AfterK(c, Init(c), steps)
  }

  lemma ReachableTracked(c: Config, s: State)
    requires ValidConfig(c) && ReachableK(c, s)
    ensures Tracked(c, s)
  {
    var steps :| LegalK(c, Init(c), steps) && s == AfterK(c, Init(c), steps);
    InitTracked(c);
    hide Init, Tracked;
    TrackedKept(c, Init(c), steps);
  }

  /** The rule is weaker than H: every run under H is such a run. */
  lemma {:induction false} HRunIsAllowed(c: Config, s: State, steps: seq<Step>)
    requires Legal(c, true, s, steps)
    ensures LegalK(c, s, steps) && AfterK(c, s, steps) == After(c, true, s, steps)
    decreases |steps|
  {
    if steps != [] {
      HIsARestriction(c, s, steps[0]);
      assert steps[0].Admit? ==> Quiet(s.adds, LookupName(steps[0].name));
      assert Allowed(c, s, steps[0]);
      hide Enabled, Apply, Allowed, LookupName;
      HRunIsAllowed(c, Apply(c, s, steps[0]), steps[1..]);
    }
  }

  /** Nobody is orphaned under the weaker rule. */
  lemma NobodyLost(c: Config, s: State, a: nat)
    requires ValidConfig(c) && ReachableK(c, s) && a in s.children && s.children[a] != Reaped
    ensures a in s.adds && Covered(s, a)
  {
    ReachableTracked(c, s);
    assert ChildOk(s, a);
  }
}
