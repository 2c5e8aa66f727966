/** What holds in every state a run of the protocol can reach. The theorems that carry
    `true` in `Legal` are about runs that respect hypothesis H; those that carry `false`
    are about every run of the code. */
module ProtocolTheorems {
  import opened Names
  import opened Aliases
  import opened Registry
  import opened Protocol
  import opened ProtocolInv
  import opened ProtocolChildren
  import opened ProtocolLedger
  import opened ProtocolShutdown

  // ----- where a published backend's address is -----

  predicate PublishedAccount(s: State, a: nat)
    requires a in s.adds
  {
    s.adds[a].phase.Published? ==>
      InDynamicMap(s, a, s.adds[a]) || a in s.owed || a in s.selfExited || Settled(s, s.adds[a])
  }

  ghost predicate PublishedAccounted(s: State) {
    forall a :: a in s.adds ==> PublishedAccount(s, a)
  }

  lemma AccountedSame(s: State, t: State)
    requires PublishedAccounted(s)
    requires forall a :: a in t.adds && t.adds[a].phase.Published? ==> a in s.adds && t.adds[a] == s.adds[a]
    requires t.maps.dynamic == s.maps.dynamic && t.owed == s.owed && t.selfExited == s.selfExited && s.fired <= t.fired
    ensures PublishedAccounted(t)
  {
    forall a | a in t.adds ensures PublishedAccount(t, a) {
      assert a in s.adds ==> PublishedAccount(s, a);
    }
  }

  lemma AdvanceFrame(c: Config, s: State, step: Step)
    requires Advances(step) && !step.TryPublish? && Enabled(c, false, s, step)
    ensures var t := Apply(c, s, step);
            && t.maps.dynamic == s.maps.dynamic && t.owed == s.owed && t.selfExited == s.selfExited && t.fired == s.fired
            && step.a in t.adds && t.adds == s.adds[step.a := t.adds[step.a]] && !t.adds[step.a].phase.Published?
  {
    hide ReserveEffect, PublishEffect, WatchEffect, TakeAll, Release;
  }

  lemma AccountedAdvance(c: Config, s: State, step: Step)
    requires PublishedAccounted(s) && Advances(step) && !step.TryPublish? && Enabled(c, false, s, step)
    ensures PublishedAccounted(Apply(c, s, step))
  {
    AdvanceFrame(c, s, step);
    hide PublishedAccounted, Apply, Enabled, Advances;
    AccountedSame(s, Apply(c, s, step));
  }

  lemma ReserveFrame(c: Config, s: State, a: nat, answers: seq<Answer>)
    requires At(s, a, Admitted) && answers != []
    ensures var t := ReserveEffect(c, s, a, answers);
            && t.maps.dynamic == s.maps.dynamic && t.owed == s.owed && t.selfExited == s.selfExited && s.fired <= t.fired
            && a in t.adds && t.adds == s.adds[a := t.adds[a]] && !t.adds[a].phase.Published?
  {
    hide Accepts, Range, TokensTaken;
  }

  lemma AccountedReserve(c: Config, s: State, a: nat, answers: seq<Answer>)
    requires PublishedAccounted(s) && Enabled(c, false, s, ReserveAddress(a, answers))
    ensures PublishedAccounted(Apply(c, s, ReserveAddress(a, answers)))
  {
    ReserveFrame(c, s, a, answers);
    hide PublishedAccounted, ReserveEffect;
    AccountedSame(s, Apply(c, s, ReserveAddress(a, answers)));
  }

  lemma AccountedStopped(c: Config, s: State, a: nat, signalled: bool)
    requires PublishedAccounted(s) && Enabled(c, false, s, FinishOwnStop(a, signalled))
    ensures PublishedAccounted(Apply(c, s, FinishOwnStop(a, signalled)))
  {
    hide PublishedAccounted;
    AccountedSame(s, Apply(c, s, FinishOwnStop(a, signalled)));
  }

  lemma AccountedReleasing(c: Config, s: State, a: nat)
    requires PublishedAccounted(s) && Enabled(c, false, s, Releasing(a))
    ensures PublishedAccounted(Apply(c, s, Releasing(a)))
  {
    hide PublishedAccounted;
    AccountedSame(s, Apply(c, s, Releasing(a)));
  }

  lemma AccountedBackOut(c: Config, s: State, step: Step)
    requires PublishedAccounted(s) && Enabled(c, false, s, step)
    requires step.LeavePendingMap? || step.Unreserving? || step.Unmarking?
    ensures PublishedAccounted(Apply(c, s, step))
  {
    hide PublishedAccounted;
    AccountedSame(s, Apply(c, s, step));
  }

  lemma AccountedFlag(c: Config, s: State, step: Step)
    requires PublishedAccounted(s) && (RuntimeFlag(step) || Outside(step)) && Enabled(c, false, s, step)
    ensures PublishedAccounted(Apply(c, s, step))
  {
    hide PublishedAccounted;
    if Outside(step) {
      OutsideFrame(c, s, step);
      hide Apply, Enabled;
    }
    AccountedSame(s, Apply(c, s, step));
  }

  lemma AccountedTakeOut(c: Config, s: State, step: Step)
    requires PublishedAccounted(s) && TakesOut(step) && Enabled(c, false, s, step)
    ensures PublishedAccounted(Apply(c, s, step))
  {
    var t := Apply(c, s, step);
    forall a | a in t.adds ensures PublishedAccount(t, a) {
      assert PublishedAccount(s, a);
      assert InDynamicMap(s, a, s.adds[a]) ==> s.maps.dynamic[s.adds[a].key].id == a;
    }
  }

  lemma AccountedPublished(s: State, a: nat)
    requires PublishedAccounted(s) && At(s, a, Owned) && s.healthy
    requires s.adds[a].key !in s.maps.dynamic && InPendingMap(s, a, s.adds[a])
    ensures PublishedAccounted(PublishEffect(s, a))
  {
    var t := PublishEffect(s, a);
    forall b | b in t.adds ensures PublishedAccount(t, b) {
      assert PublishedAccount(s, b);
    }
  }

  lemma AccountedRefused(s: State, a: nat)
    requires PublishedAccounted(s) && At(s, a, Owned) && !s.healthy
    ensures PublishedAccounted(PublishEffect(s, a))
  {
    hide PublishedAccounted;
    AccountedSame(s, PublishEffect(s, a));
  }

  lemma AccountedPublish(c: Config, s: State, a: nat)
    requires Core(c, s) && PublishedAccounted(s) && Enabled(c, false, s, TryPublish(a))
    ensures PublishedAccounted(Apply(c, s, TryPublish(a)))
  {
    hide PublishedAccounted, PublishEffect;
    if s.healthy {
      PublishFindsDynamicFree(c, s, a);
      AccountedPublished(s, a);
    } else {
      AccountedRefused(s, a);
    }
  }

  lemma AccountedStep(c: Config, s: State, step: Step)
    requires Core(c, s) && PublishedAccounted(s) && Enabled(c, false, s, step)
    ensures PublishedAccounted(Apply(c, s, step))
  {
    hide Core, Enabled, Apply, PublishedAccounted;
    if step.TryPublish? {
      AccountedPublish(c, s, step.a);
    } else if Advances(step) {
      AccountedAdvance(c, s, step);
    } else if step.FinishOwnStop? {
      AccountedStopped(c, s, step.a, step.signalled);
    } else if step.Releasing? {
      AccountedReleasing(c, s, step.a);
    } else if BacksOut(step) {
      AccountedBackOut(c, s, step);
    } else if TakesOut(step) {
      AccountedTakeOut(c, s, step);
    } else if step.ReserveAddress? {
      AccountedReserve(c, s, step.a, step.answers);
    } else {
      AccountedFlag(c, s, step);
    }
  }

  // ----- runs -----

  lemma HIsARestriction(c: Config, s: State, step: Step)
    requires Enabled(c, true, s, step)
    ensures Enabled(c, false, s, step)
  {
  }

  /** What every run keeps. */
  ghost predicate Always(c: Config, s: State) {
    Ledger(s) && ServingListens(c, s) && FlagIsUp(s)
  }

  /** What every run that respects H keeps as well. */
  ghost predicate UnderH(c: Config, s: State) {
    Core(c, s) && NoOrphan(s) && PublishedAccounted(s)
  }

  lemma InitHolds(c: Config)
    requires ValidConfig(c)
    ensures Always(c, Init(c)) && UnderH(c, Init(c))
  {
    CoreInit(c);
    assert Init(c).releases == multiset(Init(c).fired);
    hide Core;
  }

  lemma ServedChildrenAreAdds(s: State)
    requires Ledger(s)
    ensures s.children.Keys <= s.adds.Keys
  {
  }

  lemma {:induction false} AlwaysKept(c: Config, s: State, steps: seq<Step>)
    requires Always(c, s) && Legal(c, false, s, steps)
    ensures Always(c, After(c, false, s, steps))
    decreases |steps|
  {
    if steps != [] {
      ServedChildrenAreAdds(s);
      hide Ledger, ServingListens, FlagIsUp, Enabled, Apply;
      FlagStep(c, s, steps[0]);
      LedgerStep(c, s, steps[0]);
      ServingStep(c, s, steps[0]);
      AlwaysKept(c, Apply(c, s, steps[0]), steps[1..]);
    }
  }

  lemma {:induction false} UnderHKept(c: Config, s: State, steps: seq<Step>)
    requires UnderH(c, s) && Legal(c, true, s, steps)
    ensures UnderH(c, After(c, true, s, steps))
    decreases |steps|
  {
    if steps != [] {
      HIsARestriction(c, s, steps[0]);
      hide Core, NoOrphan, PublishedAccounted, Enabled, Apply;
      CoreStep(c, s, steps[0]);
      ChildrenStep(c, s, steps[0]);
      AccountedStep(c, s, steps[0]);
      UnderHKept(c, Apply(c, s, steps[0]), steps[1..]);
    }
  }

  lemma {:induction false} RestrictedRun(c: Config, s: State, steps: seq<Step>)
    requires Legal(c, true, s, steps)
    ensures Legal(c, false, s, steps) && After(c, false, s, steps) == After(c, true, s, steps)
    decreases |steps|
  {
    if steps != [] {
      HIsARestriction(c, s, steps[0]);
      hide Enabled, Apply;
      RestrictedRun(c, Apply(c, s, steps[0]), steps[1..]);
    }
  }

  lemma {:induction false} Extend(c: Config, h: bool, s: State, steps: seq<Step>, step: Step)
    requires Legal(c, h, s, steps)
    requires Enabled(c, h, After(c, h, s, steps), step) && Enabled(c, false, After(c, h, s, steps), step)
    ensures Legal(c, h, s, steps + [step])
    ensures After(c, h, s, steps + [step]) == Apply(c, After(c, h, s, steps), step)
    decreases |steps|
  {
    var longer := steps + [step];
    if steps == [] {
      assert longer[0] == step && longer[1..] == [];
    } else {
      assert Enabled(c, false, s, steps[0]);
      hide Enabled, Apply;
      Extend(c, h, Apply(c, s, steps[0]), steps[1..], step);
      assert longer[0] == steps[0] && longer[1..] == steps[1..] + [step];
    }
  }

  /** A state some run under H, respectively any run, can be in. */
  ghost predicate ReachableUnderH(c: Config, s: State) {
    exists steps :: Legal(c, true, Init(c), steps) && s == After(c, true, Init(c), steps)
  }

  ghost predicate Reachable(c: Config, s: State) {
    exists steps :: Legal(c, false, Init(c), steps) && s == After(c, false, Init(c), steps)
  }

  lemma ReachableAlways(c: Config, s: State)
    requires ValidConfig(c) && Reachable(c, s)
    ensures Always(c, s)
  {
    var steps :| Legal(c, false, Init(c), steps) && s == After(c, false, Init(c), steps);
    InitHolds(c);
    hide Always, Init, UnderH;
    AlwaysKept(c, Init(c), steps);
  }

  lemma ReachableHolds(c: Config, s: State)
    requires ValidConfig(c) && ReachableUnderH(c, s)
    ensures Always(c, s) && UnderH(c, s)
  {
    var steps :| Legal(c, true, Init(c), steps) && s == After(c, true, Init(c), steps);
    InitHolds(c);
    hide Always, Init, UnderH;
    RestrictedRun(c, Init(c), steps);
    AlwaysKept(c, Init(c), steps);
    UnderHKept(c, Init(c), steps);
  }

  // ----- the alias index -----

  /** In every state of every run under H, any spelling of any name resolves to exactly
      what the plan of static and published dynamic backends says about its lookup name;
      a static backend's answer never changes. */
  lemma IndexIsPlan(c: Config, s: State, spelling: string)
    requires ValidConfig(c) && ReachableUnderH(c, s)
    ensures var k := LookupName(spelling);
            Resolve(s.maps.backends, spelling) ==
              if k in s.maps.dynamic then Some(s.maps.dynamic[k].addr)
              else if k in c.base then Some(c.base[k].addr)
              else None
    ensures LookupName(spelling) in c.base ==> LookupName(spelling) !in s.maps.dynamic
  {
    ReachableHolds(c, s);
    ResolveIsByLookupName(s.maps.backends, PlanNow(c.base, s.maps.dynamic), spelling);
  }

  /** The exit watcher of a child that is no longer the published one changes no map. */
  lemma LateExitHarmless(c: Config, s: State, a: nat)
    requires ValidConfig(c) && Reachable(c, s) && Enabled(c, false, s, WatchExit(a))
    requires !InDynamicMap(s, a, s.adds[a])
    ensures Apply(c, s, WatchExit(a)).maps == s.maps
  {
    ReachableAlways(c, s);
    assert !InPendingMap(s, a, s.adds[a]);
  }

  // ----- addresses -----

  /** A reserving, pending or published dynamic backend has been promised its address. */
  predicate Promised(s: State, a: nat) {
    a in s.adds && (HoldsAddress(s.adds[a].phase) || InDynamicMap(s, a, s.adds[a]))
  }

  lemma PromisedExclusive(c: Config, s: State, a: nat, b: nat)
    requires Core(c, s) && !s.run.Torn? && Promised(s, a) && Promised(s, b) && a != b
    ensures s.adds[a].addr != s.adds[b].addr
  {
    var da, db := s.adds[a], s.adds[b];
    if HoldsAddress(da.phase) && HoldsAddress(db.phase) {
      HolderIsAlone(c.base, s.maps, s.adds, a, b);
    } else if HoldsAddress(da.phase) {
      PublishedIsServed(c.base, s.maps, db.key);
    } else if HoldsAddress(db.phase) {
      PublishedIsServed(c.base, s.maps, da.key);
    } else {
      assert da.key != db.key;
    }
  }

  lemma PublishedIsServed(base: Plan, m: Maps, k: string)
    requires IndexOk(base, m) && k in m.dynamic
    ensures Serves(m.backends, m.dynamic[k].addr)
  {
    PlannedIsServed(m.backends, PlanNow(base, m.dynamic), k);
  }

  lemma PromisedNotStatic(c: Config, s: State, a: nat, k: string)
    requires Core(c, s) && !s.run.Torn? && Promised(s, a) && k in c.base
    ensures s.adds[a].addr != c.base[k].addr
  {
    if HoldsAddress(s.adds[a].phase) {
      assert k !in s.maps.dynamic;
      assert PlanNow(c.base, s.maps.dynamic)[k] == c.base[k];
      PlannedIsServed(s.maps.backends, PlanNow(c.base, s.maps.dynamic), k);
    }
  }

  /** Against any allocator, under H and before the teardown: no two adds, and no add and
      no static backend, are promised the same address. */
  lemma AddressesExclusive(c: Config, s: State)
    requires ValidConfig(c) && ReachableUnderH(c, s) && !s.run.Torn?
    ensures forall a, b :: Promised(s, a) && Promised(s, b) && a != b ==> s.adds[a].addr != s.adds[b].addr
    ensures forall a, k :: Promised(s, a) && k in c.base ==> s.adds[a].addr != c.base[k].addr
  {
    ReachableHolds(c, s);
    hide Always;
    forall a, b | Promised(s, a) && Promised(s, b) && a != b ensures s.adds[a].addr != s.adds[b].addr {
      PromisedExclusive(c, s, a, b);
    }
    forall a, k | Promised(s, a) && k in c.base ensures s.adds[a].addr != c.base[k].addr {
      PromisedNotStatic(c, s, a, k);
    }
  }

  /** Without H: when every ownership question is answered and children keep the ports they
      listen on, the published children that are alive listen on their own addresses, which
      are therefore pairwise distinct, whatever addresses the allocator repeats. */
  lemma LivePublishedDistinct(c: Config, s: State, a: nat, b: nat)
    requires ValidConfig(c) && Reachable(c, s) && c.ownersKnown && c.portsKept && a != b
    requires At(s, a, Published) && ChildOfAdd(s, a) == Some(Running)
    requires At(s, b, Published) && ChildOfAdd(s, b) == Some(Running)
    ensures Get(s.listener, s.adds[a].addr) == Some(ChildOf(a))
    ensures s.adds[a].addr != s.adds[b].addr
  {
    ReachableAlways(c, s);
    hide Ledger;
    assert Serving(s, a) && Serving(s, b);
  }

  // ----- children -----

  /** Under H every child that has been started and not yet reaped is in `pending`, in
      `dynamic`, or with somebody committed to stopping it. */
  lemma NobodyOrphaned(c: Config, s: State, a: nat)
    requires ValidConfig(c) && ReachableUnderH(c, s) && a in s.children && s.children[a] != Reaped
    ensures a in s.adds && Covered(s, a)
  {
    ReachableHolds(c, s);
    assert ChildOk(s, a);
  }

  /** `pending` and `dynamic` only ever lose entries or gain them under a free key. */
  ghost predicate NotOverwritten(s: State, t: State) {
    && (forall k :: k in s.maps.pending && k in t.maps.pending ==> t.maps.pending[k] == s.maps.pending[k])
    && (forall k :: k in s.maps.dynamic && k in t.maps.dynamic ==> t.maps.dynamic[k] == s.maps.dynamic[k])
  }

  lemma LaunchKeepsEntries(s: State, a: nat, spawned: bool)
    requires At(s, a, Reserved) && (s.healthy ==> s.adds[a].key !in s.maps.pending)
    ensures NotOverwritten(s, LaunchEffect(s, a, spawned))
  {
  }

  lemma LaunchOverwritesNothing(c: Config, s: State, a: nat, spawned: bool)
    requires Core(c, s) && Enabled(c, false, s, Launch(a, spawned))
    ensures NotOverwritten(s, Apply(c, s, Launch(a, spawned)))
  {
    hide NotOverwritten, LaunchEffect;
    if s.healthy {
      LaunchFindsPendingFree(c, s, a);
    }
    LaunchKeepsEntries(s, a, spawned);
  }

  lemma PublishKeepsEntries(s: State, a: nat)
    requires At(s, a, Owned) && (s.healthy ==> s.adds[a].key !in s.maps.dynamic)
    ensures NotOverwritten(s, PublishEffect(s, a))
  {
    hide Store;
  }

  lemma PublishOverwritesNothing(c: Config, s: State, a: nat)
    requires Core(c, s) && Enabled(c, false, s, TryPublish(a))
    ensures NotOverwritten(s, Apply(c, s, TryPublish(a)))
  {
    hide NotOverwritten, PublishEffect;
    if s.healthy {
      PublishFindsDynamicFree(c, s, a);
    }
    PublishKeepsEntries(s, a);
  }

  lemma OtherStepsOverwriteNothing(c: Config, s: State, step: Step)
    requires Enabled(c, false, s, step) && (TakesOut(step) || BacksOut(step))
    ensures NotOverwritten(s, Apply(c, s, step))
  {
    hide ReserveEffect, LaunchEffect, PublishEffect, DeleteTwo, Store, LookupName, Taken;
  }

  lemma AdvanceOverwritesNothing(c: Config, s: State, step: Step)
    requires Enabled(c, false, s, step) && Advances(step) && !step.Launch? && !step.TryPublish?
    ensures NotOverwritten(s, Apply(c, s, step))
  {
  }

  lemma RestOverwritesNothing(c: Config, s: State, step: Step)
    requires Enabled(c, false, s, step) && (RuntimeFlag(step) || Outside(step) || step.ReserveAddress?)
    ensures NotOverwritten(s, Apply(c, s, step))
  {
    hide Accepts, Range, TokensTaken, ReserveRun;
  }

  /** Under H no step replaces an entry of `pending` or `dynamic` by another one. */
  lemma EntriesNeverOverwritten(c: Config, s: State, step: Step)
    requires ValidConfig(c) && ReachableUnderH(c, s) && Enabled(c, true, s, step)
    ensures Enabled(c, false, s, step) && NotOverwritten(s, Apply(c, s, step))
  {
    HIsARestriction(c, s, step);
    ReachableHolds(c, s);
    hide Core, NoOrphan, PublishedAccounted, Always, Apply, Enabled, NotOverwritten;
    if step.Launch? {
      LaunchOverwritesNothing(c, s, step.a, step.spawned);
    } else if step.TryPublish? {
      PublishOverwritesNothing(c, s, step.a);
    } else if Advances(step) {
      AdvanceOverwritesNothing(c, s, step);
    } else if TakesOut(step) || BacksOut(step) {
      OtherStepsOverwriteNothing(c, s, step);
    } else {
      RestOverwritesNothing(c, s, step);
    }
  }

  predicate AtRest(s: State) {
    s.owed == {} && forall a :: a in s.adds ==> s.adds[a].phase.Published? || s.adds[a].phase.Failed?
  }

  /** Once a run has been torn down and every call has returned, nothing is published,
      and every child ever started has been reaped unless its signal could not be sent. */
  lemma TeardownStopsEveryChild(c: Config, s: State)
    requires ValidConfig(c) && ReachableUnderH(c, s) && s.run.Torn? && AtRest(s)
    ensures s.maps.dynamic == map[] && s.maps.pending == map[]
    ensures s.maps.backends == c.index
    ensures forall a :: a in s.children ==> s.children[a] == Reaped || a in s.unsignalled
  {
    ReachableHolds(c, s);
    hide Always, PublishedAccounted;
    forall a | a in s.children ensures s.children[a] == Reaped || a in s.unsignalled {
      assert ChildOk(s, a);
    }
    TornIndex(c, s);
  }

  lemma TornIndex(c: Config, s: State)
    requires ValidConfig(c) && Core(c, s) && s.run.Torn?
    ensures s.maps.backends == c.index
  {
    assert PlanNow(c.base, map[]) == c.base;
    forall n ensures Get(s.maps.backends, n) == Get(c.index, n) {
      assert Get(s.maps.backends, n) == Spell(c.base, n);
      assert Get(c.index, n) == Spell(c.base, n);
    }
    assert forall n :: n in s.maps.backends <==> Get(s.maps.backends, n).Some?;
    assert forall n :: n in c.index <==> Get(c.index, n).Some?;
  }

  /** In every run, H or not: after the teardown no continuation publishes a backend or
      starts a child. An add that was not published before the teardown can only fail. */
  lemma NothingPublishedAfterTeardown(c: Config, s: State, steps: seq<Step>)
    requires ValidConfig(c) && Reachable(c, s) && s.run.Torn? && Legal(c, false, s, steps)
    ensures var t := After(c, false, s, steps);
            && t.run.Torn? && !t.healthy
            && t.children.Keys <= s.children.Keys
            && forall a :: At(t, a, Published) ==> At(s, a, Published)
  {
    ReachableAlways(c, s);
    hide Ledger, ServingListens;
    NothingAfterTeardown(c, s, steps);
  }

  // ----- the embedder's addresses -----

  /** In every run: each address is released at most once; a failed add has released its
      address exactly once; an address that is not out any more was released, and one that
      is out belongs to exactly one add; and an address some child was told to bind is
      released only after that child's exit was seen, unless its signal could not be sent. */
  lemma AddressesConserved(c: Config, s: State)
    requires ValidConfig(c) && Reachable(c, s)
    ensures forall t :: s.releases[t] <= 1
    ensures forall a, t: nat :: At(s, a, Failed) && s.adds[a].token == Some(t) ==> s.releases[t] == 1
    ensures forall t: nat :: t < s.tokens ==> s.releases[t] == 1 || HasToken(s, t)
    ensures forall a, b :: a in s.adds && b in s.adds && a != b && s.adds[a].token.Some? ==> s.adds[a].token != s.adds[b].token
    ensures forall a, t: nat :: a in s.children && a in s.adds && s.adds[a].token == Some(t) && s.releases[t] > 0 ==> Stopped(s, a)
  {
    ReachableAlways(c, s);
    hide ServingListens;
    forall a | a in s.adds ensures Account(s, a, s.adds[a]) {
    }
  }

  /** A backend unpublished because its child exited by itself has not given its address
      back. */
  lemma SelfExitNotReleased(c: Config, s: State, a: nat, t: nat)
    requires Always(c, s) && a in s.selfExited && a in s.adds && s.adds[a].token == Some(t)
    ensures s.releases[t] == 0
  {
    assert Account(s, a, s.adds[a]);
  }

  /** The embedder is promised one release when a backend no longer uses its address. Under
      H a published backend that is out of the map, with its stop over, has been given
      that release if and only if it was not its exit watcher that unpublished it. */
  lemma ReleasedIffNotSelfExited(c: Config, s: State, a: nat, t: nat)
    requires ValidConfig(c) && ReachableUnderH(c, s) && At(s, a, Published) && s.adds[a].token == Some(t)
    requires !InDynamicMap(s, a, s.adds[a]) && a !in s.owed
    ensures s.releases[t] == if a in s.selfExited then 0 else 1
  {
    ReachableHolds(c, s);
    if a in s.selfExited {
      SelfExitNotReleased(c, s, a, t);
    } else {
      assert PublishedAccount(s, a);
    }
  }

  predicate Leaked(s: State, a: nat, t: nat) {
    At(s, a, Published) && s.adds[a].token == Some(t) && a in s.selfExited
  }

  lemma AdvanceKeepsLeak(c: Config, s: State, step: Step, a: nat, t: nat)
    requires Leaked(s, a, t) && Enabled(c, false, s, step) && Advances(step)
    ensures Leaked(Apply(c, s, step), a, t)
  {
    hide Publish, GoPending, DropPending, LookupName;
    if !step.TryPublish? {
      AdvanceFrame(c, s, step);
      assert step.a != a;
      hide Apply, Enabled, Advances;
    }
  }

  lemma BackOutKeepsLeak(c: Config, s: State, step: Step, a: nat, t: nat)
    requires Leaked(s, a, t) && Enabled(c, false, s, step) && BacksOut(step)
    ensures Leaked(Apply(c, s, step), a, t)
  {
    hide DropPending, LookupName;
  }

  lemma ReserveKeepsLeak(c: Config, s: State, step: Step, a: nat, t: nat)
    requires Leaked(s, a, t) && Enabled(c, false, s, step) && step.ReserveAddress?
    ensures Leaked(Apply(c, s, step), a, t)
  {
    ReserveFrame(c, s, step.a, step.answers);
    hide ReserveEffect, ReserveRun;
  }

  lemma OtherStepKeepsLeak(c: Config, s: State, step: Step, a: nat, t: nat)
    requires Leaked(s, a, t) && Enabled(c, false, s, step) && (RuntimeFlag(step) || TakesOut(step) || Outside(step))
    ensures Leaked(Apply(c, s, step), a, t)
  {
    hide TakeAll, Taken, Unpublish, DropPending, LookupName;
  }

  lemma {:induction false} LeakStays(c: Config, s: State, steps: seq<Step>, a: nat, t: nat)
    requires Always(c, s) && Leaked(s, a, t) && Legal(c, false, s, steps)
    ensures Leaked(After(c, false, s, steps), a, t) && After(c, false, s, steps).releases[t] == 0
    decreases |steps|
  {
    if steps == [] {
      SelfExitNotReleased(c, s, a, t);
    } else {
      hide Always, Enabled, Apply, Leaked;
      AlwaysKept(c, s, [steps[0]]);
      OneStep(c, s, steps[0]);
      if Advances(steps[0]) {
        AdvanceKeepsLeak(c, s, steps[0], a, t);
      } else if BacksOut(steps[0]) {
        BackOutKeepsLeak(c, s, steps[0], a, t);
      } else if steps[0].ReserveAddress? {
        ReserveKeepsLeak(c, s, steps[0], a, t);
      } else {
        OtherStepKeepsLeak(c, s, steps[0], a, t);
      }
      LeakStays(c, Apply(c, s, steps[0]), steps[1..], a, t);
    }
  }

  lemma OneStep(c: Config, s: State, step: Step)
    requires Enabled(c, false, s, step)
    ensures Legal(c, false, s, [step]) && After(c, false, s, [step]) == Apply(c, s, step)
  {
    hide Enabled, Apply;
    assert [step][1..] == [];
  }

  lemma ThreeSteps(c: Config, s: State, x: Step, y: Step, z: Step)
    requires Enabled(c, false, s, x)
    requires Enabled(c, false, Apply(c, s, x), y)
    requires Enabled(c, false, Apply(c, Apply(c, s, x), y), z)
    ensures Legal(c, false, s, [x, y, z])
    ensures After(c, false, s, [x, y, z]) == Apply(c, Apply(c, Apply(c, s, x), y), z)
  {
    hide Enabled, Apply;
    OneStep(c, Apply(c, Apply(c, s, x), y), z);
    assert [x, y, z][1..] == [y, z] && [y, z][1..] == [z];
    assert Legal(c, false, Apply(c, s, x), [y, z]);
  }

  lemma ExitIsNoticed(c: Config, s: State, a: nat)
    requires At(s, a, Published) && InDynamicMap(s, a, s.adds[a]) && ChildOfAdd(s, a) == Some(Running)
    ensures Enabled(c, false, s, Exit(a))
    ensures var s1 := Apply(c, s, Exit(a));
            Enabled(c, false, s1, Reap(a))
            && var s2 := Apply(c, s1, Reap(a));
               Enabled(c, false, s2, WatchExit(a))
               && var u := Apply(c, s2, WatchExit(a)); a in u.selfExited && u.adds == s.adds
  {
    hide TakeAll, Taken, Unpublish, DropPending, LookupName, ReserveEffect, LaunchEffect, PublishEffect;
  }

  /** The broken promise is within reach of every published backend with an embedder's
      address: its child exits, is reaped and noticed, and from then on no continuation of
      any kind releases the address. */
  lemma SelfExitLeaks(c: Config, s: State, a: nat, t: nat, steps: seq<Step>)
    requires ValidConfig(c) && Reachable(c, s) && At(s, a, Published) && InDynamicMap(s, a, s.adds[a])
    requires s.adds[a].token == Some(t) && ChildOfAdd(s, a) == Some(Running)
    ensures var exit := [Exit(a), Reap(a), WatchExit(a)];
            && Legal(c, false, s, exit)
            && var u := After(c, false, s, exit);
               a in u.selfExited && (Legal(c, false, u, steps) ==> After(c, false, u, steps).releases[t] == 0)
  {
    ReachableAlways(c, s);
    ExitIsNoticed(c, s, a);
    hide Always, Enabled, Apply, Reachable;
    ThreeSteps(c, s, Exit(a), Reap(a), WatchExit(a));
    var exit := [Exit(a), Reap(a), WatchExit(a)];
    var u := After(c, false, s, exit);
    assert Leaked(u, a, t);
    hide Leaked;
    AlwaysKept(c, s, exit);
    if Legal(c, false, u, steps) {
      LeakStays(c, u, steps, a, t);
    }
  }

  // ----- leaving without a teardown -----

  lemma {:induction false} LeftForGood(c: Config, s: State, steps: seq<Step>)
    requires s.run.Left? && Legal(c, false, s, steps)
    ensures After(c, false, s, steps).run.Left?
    ensures Teardown !in steps
    decreases |steps|
  {
    if steps != [] {
      LeftStep(c, s, steps[0]);
      LeftForGood(c, Apply(c, s, steps[0]), steps[1..]);
      assert steps == [steps[0]] + steps[1..];
    }
  }

  lemma LeftStep(c: Config, s: State, step: Step)
    requires s.run.Left? && Enabled(c, false, s, step)
    ensures Apply(c, s, step).run.Left? && !step.Teardown?
  {
    hide Accepts, Range, TokensTaken, ReserveRun;
  }
}
