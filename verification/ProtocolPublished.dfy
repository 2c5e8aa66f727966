/** How long a published backend stays published, whatever is interleaved: restarts of the
    static child, other adds and removals, exits, and `run` leaving without a teardown. */
module ProtocolPublished {
  import opened Names
  import opened Aliases
  import opened Registry
  import opened Protocol
  import opened ProtocolInv
  import opened ProtocolChildren
  import opened ProtocolLedger
  import opened ProtocolTheorems

  /** The teardown, a removal of the key, and the exit watcher of its own child. */
  predicate EndsPublication(step: Step, key: string, id: nat) {
    || step.Teardown?
    || (step.Remove? && LookupName(step.spelling) == key)
    || (step.WatchExit? && step.a == id)
  }

  predicate SameEntry(s: State, t: State, key: string)
    requires key in s.maps.dynamic
  {
    Get(t.maps.dynamic, key) == Some(s.maps.dynamic[key])
  }

  lemma TeardownEnds(c: Config, s: State, key: string)
    requires key in s.maps.dynamic && Enabled(c, false, s, Teardown)
    ensures !SameEntry(s, Apply(c, s, Teardown), key)
  {
    TeardownFrame(c, s);
    hide Apply, Enabled;
  }

  lemma RemoveEnds(c: Config, s: State, spelling: string, key: string)
    requires key in s.maps.dynamic && Enabled(c, false, s, Remove(spelling))
    ensures SameEntry(s, Apply(c, s, Remove(spelling)), key) <==> LookupName(spelling) != key
  {
    RemoveFrame(c, s, spelling);
    hide Apply, Enabled, LookupName;
  }

  lemma WatchFrame(s: State, a: nat)
    requires At(s, a, Published)
    ensures WatchEffect(s, a).maps.dynamic
            == if InDynamicMap(s, a, s.adds[a]) then s.maps.dynamic - {s.adds[a].key} else s.maps.dynamic
  {
  }

  lemma WatchEnds(c: Config, s: State, a: nat, key: string)
    requires Entries(s.maps, s.adds) && key in s.maps.dynamic && Enabled(c, false, s, WatchExit(a))
    ensures SameEntry(s, Apply(c, s, WatchExit(a)), key) <==> a != s.maps.dynamic[key].id
  {
    WatchFrame(s, a);
    assert EntryOf(s.adds, key, s.maps.dynamic[key]);
    hide WatchEffect, Entries;
  }

  lemma PublishSparesEntry(s: State, a: nat, key: string)
    requires At(s, a, Owned) && key in s.maps.dynamic && (s.healthy ==> s.adds[a].key !in s.maps.dynamic)
    ensures SameEntry(s, PublishEffect(s, a), key)
  {
    hide Store;
  }

  lemma PublishSpares(c: Config, s: State, a: nat, key: string)
    requires Core(c, s) && key in s.maps.dynamic && Enabled(c, false, s, TryPublish(a))
    ensures SameEntry(s, Apply(c, s, TryPublish(a)), key)
  {
    hide Core, PublishEffect, SameEntry;
    if s.healthy {
      PublishFindsDynamicFree(c, s, a);
    }
    PublishSparesEntry(s, a, key);
  }

  lemma CoreEntries(c: Config, s: State)
    requires Core(c, s)
    ensures Entries(s.maps, s.adds)
  {
  }

  lemma AddSpares(c: Config, s: State, step: Step, key: string)
    requires key in s.maps.dynamic && Enabled(c, false, s, step)
    requires (Advances(step) && !step.TryPublish?) || step.ReserveAddress?
    ensures SameEntry(s, Apply(c, s, step), key)
  {
    if step.ReserveAddress? {
      ReserveFrame(c, s, step.a, step.answers);
      hide ReserveEffect, ReserveRun;
    } else {
      AdvanceFrame(c, s, step);
      hide Apply, Enabled;
    }
  }

  lemma BackOutSpares(c: Config, s: State, step: Step, key: string)
    requires key in s.maps.dynamic && Enabled(c, false, s, step) && BacksOut(step)
    ensures SameEntry(s, Apply(c, s, step), key)
  {
    hide LookupName, LaunchEffect, PublishEffect, ReserveEffect, WatchEffect, TakeAll;
  }

  lemma RestSpares(c: Config, s: State, step: Step, key: string)
    requires key in s.maps.dynamic && Enabled(c, false, s, step) && (RuntimeFlag(step) || Outside(step))
    ensures SameEntry(s, Apply(c, s, step), key)
  {
    if Outside(step) {
      OutsideFrame(c, s, step);
      hide Apply, Enabled;
    }
  }

  lemma FinishSpares(s: State, t: State, key: string)
    requires t.maps == s.maps && key in s.maps.dynamic
    ensures SameEntry(s, t, key)
  {
  }

  /** Exactly these steps end a publication. */
  lemma PublicationEndsIff(c: Config, s: State, step: Step, key: string)
    requires Core(c, s) && key in s.maps.dynamic && Enabled(c, false, s, step)
    ensures SameEntry(s, Apply(c, s, step), key) <==> !EndsPublication(step, key, s.maps.dynamic[key].id)
  {
    CoreEntries(c, s);
    hide Core, Entries, Enabled, Apply, SameEntry, LookupName;
    if step.Teardown? {
      TeardownEnds(c, s, key);
    } else if step.Remove? {
      RemoveEnds(c, s, step.spelling, key);
    } else if step.WatchExit? {
      WatchEnds(c, s, step.a, key);
    } else if step.FinishStop? {
      FinishStopShape(c, s, step.a, step.signalled);
      FinishSpares(s, Apply(c, s, step), key);
    } else if step.TryPublish? {
      PublishSpares(c, s, step.a, key);
    } else if Advances(step) || step.ReserveAddress? {
      AddSpares(c, s, step, key);
    } else if BacksOut(step) {
      BackOutSpares(c, s, step, key);
    } else {
      RestSpares(c, s, step, key);
    }
  }

  predicate NeverEnds(steps: seq<Step>, key: string, id: nat) {
    forall i :: 0 <= i < |steps| ==> !EndsPublication(steps[i], key, id)
  }

  lemma CoreOf(c: Config, s: State)
    requires UnderH(c, s)
    ensures Core(c, s)
  {
  }

  lemma {:induction false} EntryStays(c: Config, s: State, steps: seq<Step>, key: string)
    requires UnderH(c, s) && Legal(c, true, s, steps)
    requires key in s.maps.dynamic && NeverEnds(steps, key, s.maps.dynamic[key].id)
    ensures UnderH(c, After(c, true, s, steps)) && SameEntry(s, After(c, true, s, steps), key)
    decreases |steps|
  {
    hide UnderH, Enabled, Apply, EndsPublication, LookupName;
    if steps != [] {
      StepUnderH(c, s, steps[0]);
      CoreOf(c, s);
      PublicationEndsIff(c, s, steps[0], key);
      EntryStays(c, Apply(c, s, steps[0]), steps[1..], key);
    }
  }

  lemma StepUnderH(c: Config, s: State, step: Step)
    requires UnderH(c, s) && Enabled(c, true, s, step)
    ensures Enabled(c, false, s, step) && UnderH(c, Apply(c, s, step))
  {
    HIsARestriction(c, s, step);
    hide UnderH, Enabled, Apply;
    assert [step][1..] == [];
    assert Legal(c, true, Apply(c, s, step), []);
    assert Legal(c, true, s, [step]);
    assert After(c, true, s, [step]) == Apply(c, s, step);
    UnderHKept(c, s, [step]);
  }

  lemma ResolvesToEntry(c: Config, s: State, spelling: string)
    requires UnderH(c, s) && LookupName(spelling) in s.maps.dynamic
    ensures Resolve(s.maps.backends, spelling) == Some(s.maps.dynamic[LookupName(spelling)].addr)
  {
    hide NoOrphan, PublishedAccounted, LookupName;
    ResolveIsByLookupName(s.maps.backends, PlanNow(c.base, s.maps.dynamic), spelling);
  }

  lemma EntryNotOwed(s: State, key: string)
    requires Ledger(s) && key in s.maps.dynamic
    ensures s.maps.dynamic[key].id !in s.owed
  {
    var id := s.maps.dynamic[key].id;
    assert EntryOf(s.adds, key, s.maps.dynamic[key]);
    assert Account(s, id, s.adds[id]) && InDynamicMap(s, id, s.adds[id]);
  }

  /** Under H, through any steps but those three, restarts, exits of `run` and everything
      else included: the entry stays, every spelling of its key keeps resolving to its
      address, and nobody is about to stop its child. */
  lemma PublishedStays(c: Config, s: State, steps: seq<Step>, key: string, spelling: string)
    requires ValidConfig(c) && ReachableUnderH(c, s) && Legal(c, true, s, steps)
    requires key in s.maps.dynamic && NeverEnds(steps, key, s.maps.dynamic[key].id) && LookupName(spelling) == key
    ensures var t := After(c, true, s, steps);
            && SameEntry(s, t, key) && s.maps.dynamic[key].id !in t.owed
            && Resolve(t.maps.backends, spelling) == Some(s.maps.dynamic[key].addr)
  {
    ReachableHolds(c, s);
    hide UnderH, Always, LookupName, ReachableUnderH;
    EntryStays(c, s, steps, key);
    var t := After(c, true, s, steps);
    ResolvesToEntry(c, t, spelling);
    RestrictedRun(c, s, steps);
    AlwaysKept(c, s, steps);
    LedgerOf(c, t);
    EntryNotOwed(t, key);
  }

  lemma LedgerOf(c: Config, s: State)
    requires Always(c, s)
    ensures Ledger(s)
  {
  }

  /** `run` leaving without a teardown strands what is published: unless somebody removes
      it or its child dies, it stays published, resolves, and is never stopped, through
      every continuation of the run. */
  lemma LeavingStrandsPublished(c: Config, s: State, steps: seq<Step>, key: string, spelling: string)
    requires ValidConfig(c) && ReachableUnderH(c, s) && Enabled(c, true, s, Leave)
    requires Legal(c, true, Apply(c, s, Leave), steps)
    requires key in s.maps.dynamic && LookupName(spelling) == key
    requires forall i :: 0 <= i < |steps| && EndsPublication(steps[i], key, s.maps.dynamic[key].id) ==> steps[i].Teardown?
    ensures Teardown !in steps
    ensures var t := After(c, true, Apply(c, s, Leave), steps);
            && t.run.Left? && SameEntry(s, t, key) && s.maps.dynamic[key].id !in t.owed
            && Resolve(t.maps.backends, spelling) == Some(s.maps.dynamic[key].addr)
  {
    var u, all := Apply(c, s, Leave), [Leave] + steps;
    assert all[0] == Leave && all[1..] == steps;
    assert u.run.Left?;
    hide Enabled, Apply, ReachableUnderH, LookupName, SameEntry;
    RestrictedRun(c, u, steps);
    LeftForGood(c, u, steps);
    assert Legal(c, true, s, all) && After(c, true, s, all) == After(c, true, u, steps);
    forall i | 0 <= i < |all| ensures !EndsPublication(all[i], key, s.maps.dynamic[key].id) {
      assert i > 0 ==> all[i] == steps[i - 1] && steps[i - 1] in steps;
    }
    PublishedStays(c, s, all, key, spelling);
  }

  lemma {:induction false} SplitRun(c: Config, s: State, before: seq<Step>, after: seq<Step>)
    requires Legal(c, true, s, before + after)
    ensures Legal(c, true, s, before)
    ensures Legal(c, true, After(c, true, s, before), after)
    ensures After(c, true, s, before + after) == After(c, true, After(c, true, s, before), after)
    decreases |before|
  {
    if before == [] {
      assert before + after == after;
    } else {
      assert (before + after)[0] == before[0] && (before + after)[1..] == before[1..] + after;
      HIsARestriction(c, s, before[0]);
      hide Enabled, Apply;
      SplitRun(c, Apply(c, s, before[0]), before[1..], after);
    }
  }
}
