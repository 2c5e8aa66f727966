/** Every child the runner starts has somebody committed to stopping it, under H. */
module ProtocolChildren {
  import opened Names
  import opened Aliases
  import opened Registry
  import opened Protocol
  import opened ProtocolInv

  predicate InMaps(m: Maps, a: nat, d: Add) {
    Get(m.pending, d.key) == Some(ProcOf(a, d)) || Get(m.dynamic, d.key) == Some(ProcOf(a, d))
  }

  /** In `pending`, in `dynamic`, or owned by an actor that is about to stop it; the last
      disjunct is the one way out the code has: the signal could not be sent. */
  predicate Covered(s: State, a: nat)
    requires a in s.adds
  {
    || InMaps(s.maps, a, s.adds[a])
    || s.adds[a].phase == StopPending
    || s.adds[a].phase == StopUnpublished
    || a in s.owed
    || a in s.unsignalled
  }

  predicate Stopped(s: State, a: nat) {
    Get(s.children, a) == Some(Reaped) || a in s.unsignalled
  }

  predicate BeforeLaunch(p: Phase) {
    p.Admitted? || p.Reserved?
  }

  predicate HasChild(p: Phase) {
    InPending(p) || p.StopUnpublished? || p.Published?
  }

  predicate ChildOk(s: State, a: nat)
    requires a in s.adds
  {
    && (a in s.children ==> s.children[a] == Reaped || Covered(s, a))
    && (a in s.children ==> !BeforeLaunch(s.adds[a].phase))
    && (HasChild(s.adds[a].phase) ==> a in s.children)
    && (a in s.children && (s.adds[a].phase.LeavePending? || s.adds[a].phase.DropReservation? || s.adds[a].phase.ReturnAddress?)
        ==> Stopped(s, a))
  }

  ghost predicate NoOrphan(s: State) {
    && s.children.Keys <= s.adds.Keys
    && forall a :: a in s.adds ==> ChildOk(s, a)
  }

  /** `pending` is never overwritten: when a child goes pending its key is free. */
  lemma LaunchFindsPendingFree(c: Config, s: State, a: nat)
    requires Core(c, s) && At(s, a, Reserved) && s.healthy
    ensures s.adds[a].key !in s.maps.pending
  {
    assert s.adds[a].key in s.maps.pending ==> Rivals(s.adds, a, s.maps.pending[s.adds[a].key].id);
  }

  /** `dynamic` is never overwritten: when a child is published its key is free. */
  lemma PublishFindsDynamicFree(c: Config, s: State, a: nat)
    requires Core(c, s) && At(s, a, Owned) && s.healthy
    ensures s.adds[a].key !in s.maps.dynamic
    ensures Get(s.maps.pending, s.adds[a].key) == Some(ProcOf(a, s.adds[a]))
  {
    assert RecordedAdd(s.maps, a, s.adds[a]);
  }

  lemma ChildrenAdmit(c: Config, s: State, a: nat, name: string)
    requires NoOrphan(s) && Enabled(c, false, s, Admit(a, name))
    ensures NoOrphan(Apply(c, s, Admit(a, name)))
  {
    var t := Apply(c, s, Admit(a, name));
    forall b | b in t.adds ensures ChildOk(t, b) {
      assert b != a ==> ChildOk(s, b);
    }
  }

  /** One add moves on and only it can lose its entries. */
  lemma ChildrenMove(s: State, t: State, a: nat)
    requires NoOrphan(s) && a in s.adds && a in t.adds
    requires t.adds == s.adds[a := t.adds[a]]
    requires t.owed == s.owed && s.unsignalled <= t.unsignalled
    requires s.children.Keys <= t.children.Keys <= s.children.Keys + {a}
    requires forall b :: b != a && b in s.children ==> t.children[b] == s.children[b]
    requires forall b :: b in s.adds && b != a && InMaps(s.maps, b, s.adds[b]) ==> InMaps(t.maps, b, s.adds[b])
    requires ChildOk(t, a)
    ensures NoOrphan(t)
  {
    forall b | b in t.adds ensures ChildOk(t, b) {
      assert b != a ==> ChildOk(s, b);
    }
  }

  /** One add moves on without touching `pending`, `dynamic` or the set of children. */
  lemma ChildrenPhase(s: State, t: State, a: nat)
    requires NoOrphan(s) && a in s.adds && a in t.adds
    requires t.adds == s.adds[a := t.adds[a]] && t.children == s.children
    requires t.owed == s.owed && s.unsignalled <= t.unsignalled
    requires t.maps.pending == s.maps.pending && t.maps.dynamic == s.maps.dynamic
    requires ChildOk(t, a)
    ensures NoOrphan(t)
  {
    forall b | b in t.adds ensures ChildOk(t, b) {
      assert b != a ==> ChildOk(s, b);
    }
  }

  lemma ChildrenReserve(c: Config, s: State, a: nat, answers: seq<Answer>)
    requires NoOrphan(s) && At(s, a, Admitted) && answers != []
    ensures NoOrphan(ReserveEffect(c, s, a, answers))
  {
    assert ChildOk(s, a);
    assert a !in s.children;
    hide NoOrphan, Accepts, Covered;
    ChildrenPhase(s, ReserveEffect(c, s, a, answers), a);
  }

  lemma ChildrenFailConfig(c: Config, s: State, a: nat)
    requires NoOrphan(s) && Enabled(c, false, s, FailConfig(a))
    ensures NoOrphan(Apply(c, s, FailConfig(a)))
  {
    assert ChildOk(s, a);
    hide NoOrphan;
    ChildrenPhase(s, Apply(c, s, FailConfig(a)), a);
  }

  lemma ChildrenNotLaunched(s: State, a: nat, spawned: bool)
    requires NoOrphan(s) && At(s, a, Reserved) && !(s.healthy && spawned)
    ensures NoOrphan(LaunchEffect(s, a, spawned))
  {
    assert ChildOk(s, a);
    hide NoOrphan;
    ChildrenMove(s, LaunchEffect(s, a, spawned), a);
  }

  lemma ChildrenSpawned(s: State, a: nat)
    requires NoOrphan(s) && At(s, a, Reserved) && s.healthy && s.adds[a].key !in s.maps.pending
    ensures NoOrphan(LaunchEffect(s, a, true))
  {
    assert ChildOk(s, a);
    hide NoOrphan;
    ChildrenMove(s, LaunchEffect(s, a, true), a);
  }

  /** The place a launch or a publication writes to is free. */
  predicate PlaceFree(s: State, step: Step) {
    && (step.Launch? && At(s, step.a, Reserved) && s.healthy ==> s.adds[step.a].key !in s.maps.pending)
    && (step.TryPublish? && At(s, step.a, Owned) && s.healthy ==>
          && s.adds[step.a].key !in s.maps.dynamic
          && Get(s.maps.pending, s.adds[step.a].key) == Some(ProcOf(step.a, s.adds[step.a])))
  }

  lemma CorePlaceFree(c: Config, s: State, step: Step)
    requires Core(c, s)
    ensures PlaceFree(s, step)
  {
    hide Core;
    if step.Launch? && At(s, step.a, Reserved) && s.healthy {
      LaunchFindsPendingFree(c, s, step.a);
    }
    if step.TryPublish? && At(s, step.a, Owned) && s.healthy {
      PublishFindsDynamicFree(c, s, step.a);
    }
  }

  lemma ChildrenLaunch(s: State, a: nat, spawned: bool)
    requires NoOrphan(s) && At(s, a, Reserved) && PlaceFree(s, Launch(a, spawned))
    ensures NoOrphan(LaunchEffect(s, a, spawned))
  {
    hide NoOrphan, LaunchEffect;
    if s.healthy && spawned {
      ChildrenSpawned(s, a);
    } else {
      ChildrenNotLaunched(s, a, spawned);
    }
  }

  lemma ChildrenEndWait(c: Config, s: State, a: nat, ready: bool)
    requires NoOrphan(s) && Enabled(c, false, s, EndWait(a, ready))
    ensures NoOrphan(Apply(c, s, EndWait(a, ready)))
  {
    assert ChildOk(s, a);
    hide NoOrphan;
    ChildrenPhase(s, Apply(c, s, EndWait(a, ready)), a);
  }

  lemma ChildrenCheckOwner(c: Config, s: State, a: nat, known: bool)
    requires NoOrphan(s) && Enabled(c, false, s, CheckOwner(a, known))
    ensures NoOrphan(Apply(c, s, CheckOwner(a, known)))
  {
    assert ChildOk(s, a);
    hide NoOrphan;
    ChildrenPhase(s, Apply(c, s, CheckOwner(a, known)), a);
  }

  lemma ChildrenPublished(s: State, a: nat)
    requires NoOrphan(s) && At(s, a, Owned) && s.healthy
    requires s.adds[a].key !in s.maps.dynamic
    requires Get(s.maps.pending, s.adds[a].key) == Some(ProcOf(a, s.adds[a]))
    ensures NoOrphan(PublishEffect(s, a))
  {
    assert ChildOk(s, a);
    hide NoOrphan;
    ChildrenMove(s, PublishEffect(s, a), a);
  }

  lemma ChildrenRefused(s: State, a: nat)
    requires NoOrphan(s) && At(s, a, Owned) && !s.healthy
    ensures NoOrphan(PublishEffect(s, a))
  {
    assert ChildOk(s, a);
    hide NoOrphan;
    ChildrenMove(s, PublishEffect(s, a), a);
  }

  lemma ChildrenPublish(s: State, a: nat)
    requires NoOrphan(s) && At(s, a, Owned) && PlaceFree(s, TryPublish(a))
    ensures NoOrphan(PublishEffect(s, a))
  {
    hide NoOrphan, PublishEffect;
    if s.healthy {
      ChildrenPublished(s, a);
    } else {
      ChildrenRefused(s, a);
    }
  }

  lemma ChildrenFinishOwnStop(c: Config, s: State, a: nat, signalled: bool)
    requires NoOrphan(s) && Enabled(c, false, s, FinishOwnStop(a, signalled))
    ensures NoOrphan(Apply(c, s, FinishOwnStop(a, signalled)))
  {
    assert ChildOk(s, a);
    hide NoOrphan;
    ChildrenPhase(s, Apply(c, s, FinishOwnStop(a, signalled)), a);
  }

  lemma ChildrenLeavePending(c: Config, s: State, a: nat)
    requires NoOrphan(s) && Enabled(c, false, s, LeavePendingMap(a))
    ensures NoOrphan(Apply(c, s, LeavePendingMap(a)))
  {
    assert ChildOk(s, a);
    hide NoOrphan;
    ChildrenMove(s, Apply(c, s, LeavePendingMap(a)), a);
  }

  lemma ChildrenUnreserving(c: Config, s: State, a: nat)
    requires NoOrphan(s) && Enabled(c, false, s, Unreserving(a))
    ensures NoOrphan(Apply(c, s, Unreserving(a)))
  {
    assert ChildOk(s, a);
    hide NoOrphan;
    ChildrenPhase(s, Apply(c, s, Unreserving(a)), a);
  }

  lemma ChildrenReleasing(c: Config, s: State, a: nat)
    requires NoOrphan(s) && Enabled(c, false, s, Releasing(a))
    ensures NoOrphan(Apply(c, s, Releasing(a)))
  {
    assert ChildOk(s, a);
    hide NoOrphan;
    ChildrenPhase(s, Apply(c, s, Releasing(a)), a);
  }

  lemma ChildrenUnmarking(c: Config, s: State, a: nat)
    requires NoOrphan(s) && Enabled(c, false, s, Unmarking(a))
    ensures NoOrphan(Apply(c, s, Unmarking(a)))
  {
    assert ChildOk(s, a);
    hide NoOrphan;
    ChildrenPhase(s, Apply(c, s, Unmarking(a)), a);
  }

  /** No add moves; coverage and exits only grow. */
  lemma ChildrenGrow(s: State, t: State)
    requires NoOrphan(s) && t.adds == s.adds && t.children.Keys == s.children.Keys
    requires forall a :: a in s.children && s.children[a] == Reaped ==> t.children[a] == Reaped
    requires s.unsignalled <= t.unsignalled
    requires forall a :: a in s.adds && Covered(s, a) ==> Covered(t, a) || Get(t.children, a) == Some(Reaped)
    ensures NoOrphan(t)
  {
    forall a | a in t.adds ensures ChildOk(t, a) {
      assert ChildOk(s, a);
    }
  }

  lemma RemoveFrame(c: Config, s: State, spelling: string)
    requires Enabled(c, false, s, Remove(spelling))
    ensures var t, key := Apply(c, s, Remove(spelling)), LookupName(spelling);
            && t.adds == s.adds && t.children == s.children && t.unsignalled == s.unsignalled
            && t.fired == s.fired && t.selfExited == s.selfExited && t.owed == s.owed + {s.maps.dynamic[key].id}
            && t.maps.pending == s.maps.pending && t.maps.dynamic == s.maps.dynamic - {key}
  {
  }

  lemma ChildrenRemove(c: Config, s: State, spelling: string)
    requires Entries(s.maps, s.adds) && NoOrphan(s) && Enabled(c, false, s, Remove(spelling))
    ensures NoOrphan(Apply(c, s, Remove(spelling)))
  {
    var t, key := Apply(c, s, Remove(spelling)), LookupName(spelling);
    RemoveFrame(c, s, spelling);
    assert EntryOf(s.adds, key, s.maps.dynamic[key]);
    hide Apply, Enabled, LookupName, NoOrphan;
    ChildrenGrow(s, t);
  }

  lemma ChildrenTeardown(c: Config, s: State)
    requires NoOrphan(s) && Enabled(c, false, s, Teardown)
    ensures NoOrphan(Apply(c, s, Teardown))
  {
    var t := Apply(c, s, Teardown);
    forall a | a in s.adds && Covered(s, a) ensures Covered(t, a) {
      if Get(s.maps.pending, s.adds[a].key) == Some(ProcOf(a, s.adds[a])) {
        assert s.maps.pending[s.adds[a].key].id == a;
      } else if Get(s.maps.dynamic, s.adds[a].key) == Some(ProcOf(a, s.adds[a])) {
        assert s.maps.dynamic[s.adds[a].key].id == a;
      }
    }
    ChildrenGrow(s, t);
  }

  lemma ChildrenFinishStop(c: Config, s: State, a: nat, signalled: bool)
    requires NoOrphan(s) && Enabled(c, false, s, FinishStop(a, signalled))
    ensures NoOrphan(Apply(c, s, FinishStop(a, signalled)))
  {
    ChildrenGrow(s, Apply(c, s, FinishStop(a, signalled)));
  }

  lemma ChildrenWatch(c: Config, s: State, a: nat)
    requires Entries(s.maps, s.adds) && NoOrphan(s) && Enabled(c, false, s, WatchExit(a))
    ensures NoOrphan(Apply(c, s, WatchExit(a)))
  {
    ChildrenGrow(s, Apply(c, s, WatchExit(a)));
  }

  /** What happens outside the runner changes the children and the listeners only. */
  lemma OutsideFrame(c: Config, s: State, step: Step)
    requires Outside(step) && Enabled(c, false, s, step)
    ensures var t := Apply(c, s, step);
            && t.adds == s.adds && t.maps == s.maps && t.owed == s.owed && t.run == s.run && t.healthy == s.healthy
            && t.selfExited == s.selfExited && t.unsignalled == s.unsignalled
            && t.tokens == s.tokens && t.fired == s.fired && t.releases == s.releases
  {
  }

  lemma OutsideChildren(c: Config, s: State, step: Step)
    requires Outside(step) && Enabled(c, false, s, step)
    ensures var t := Apply(c, s, step);
            && t.children.Keys == s.children.Keys
            && forall b :: b in s.children ==> t.children[b] == s.children[b] || s.children[b] != Reaped
  {
  }

  lemma ChildrenOutside(c: Config, s: State, step: Step)
    requires NoOrphan(s) && Outside(step) && Enabled(c, false, s, step)
    ensures NoOrphan(Apply(c, s, step))
  {
    ChildrenGrow(s, Apply(c, s, step));
  }

  lemma ChildrenFlag(c: Config, s: State, step: Step)
    requires NoOrphan(s) && RuntimeFlag(step) && Enabled(c, false, s, step)
    ensures NoOrphan(Apply(c, s, step))
  {
    ChildrenGrow(s, Apply(c, s, step));
  }

  lemma ChildrenReserveStep(c: Config, s: State, a: nat, answers: seq<Answer>)
    requires NoOrphan(s) && Enabled(c, false, s, ReserveAddress(a, answers))
    ensures NoOrphan(Apply(c, s, ReserveAddress(a, answers)))
  {
    hide NoOrphan;
    ChildrenReserve(c, s, a, answers);
  }

  lemma ChildrenLaunchStep(c: Config, s: State, a: nat, spawned: bool)
    requires NoOrphan(s) && PlaceFree(s, Launch(a, spawned)) && Enabled(c, false, s, Launch(a, spawned))
    ensures NoOrphan(Apply(c, s, Launch(a, spawned)))
  {
    hide NoOrphan, PlaceFree;
    ChildrenLaunch(s, a, spawned);
  }

  lemma ChildrenPublishStep(c: Config, s: State, a: nat)
    requires NoOrphan(s) && PlaceFree(s, TryPublish(a)) && Enabled(c, false, s, TryPublish(a))
    ensures NoOrphan(Apply(c, s, TryPublish(a)))
  {
    hide NoOrphan, PlaceFree;
    ChildrenPublish(s, a);
  }

  /** No step that respects H makes an orphan. */
  lemma ChildrenStep(c: Config, s: State, step: Step)
    requires Core(c, s) && NoOrphan(s) && Enabled(c, true, s, step)
    ensures Enabled(c, false, s, step) && NoOrphan(Apply(c, s, step))
  {
    assert Entries(s.maps, s.adds) && Enabled(c, false, s, step);
    CorePlaceFree(c, s, step);
    hide Core, Enabled, Apply, NoOrphan, Entries, PlaceFree;
    ChildrenKept(c, s, step);
  }

  /** No step makes an orphan that launches or publishes into a free place only. */
  lemma ChildrenKept(c: Config, s: State, step: Step)
    requires Entries(s.maps, s.adds) && NoOrphan(s) && PlaceFree(s, step) && Enabled(c, false, s, step)
    ensures NoOrphan(Apply(c, s, step))
  {
    hide Enabled, Apply, NoOrphan, Entries, PlaceFree;
    match step
    case Teardown => ChildrenTeardown(c, s);
    case Admit(a, name) => ChildrenAdmit(c, s, a, name);
    case ReserveAddress(a, answers) => ChildrenReserveStep(c, s, a, answers);
    case FailConfig(a) => ChildrenFailConfig(c, s, a);
    case Launch(a, spawned) => ChildrenLaunchStep(c, s, a, spawned);
    case EndWait(a, ready) => ChildrenEndWait(c, s, a, ready);
    case CheckOwner(a, known) => ChildrenCheckOwner(c, s, a, known);
    case TryPublish(a) => ChildrenPublishStep(c, s, a);
    case FinishOwnStop(a, signalled) => ChildrenFinishOwnStop(c, s, a, signalled);
    case LeavePendingMap(a) => ChildrenLeavePending(c, s, a);
    case Unreserving(a) => ChildrenUnreserving(c, s, a);
    case Releasing(a) => ChildrenReleasing(c, s, a);
    case Unmarking(a) => ChildrenUnmarking(c, s, a);
    case Remove(spelling) => ChildrenRemove(c, s, spelling);
    case FinishStop(a, signalled) => ChildrenFinishStop(c, s, a, signalled);
    case WatchExit(a) => ChildrenWatch(c, s, a);
    case RaiseHealthy => ChildrenFlag(c, s, step);
    case LowerHealthy => ChildrenFlag(c, s, step);
    case Restart => ChildrenFlag(c, s, step);
    case Leave => ChildrenFlag(c, s, step);
    case Bind(a, addr) => ChildrenOutside(c, s, step);
    case Unbind(a, addr) => ChildrenOutside(c, s, step);
    case Exit(a) => ChildrenOutside(c, s, step);
    case Reap(a) => ChildrenOutside(c, s, step);
    case ForeignBind(addr) => ChildrenOutside(c, s, step);
    case ForeignClose(addr) => ChildrenOutside(c, s, step);
  }
}
