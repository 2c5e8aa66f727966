/** After the teardown nothing is published or started again, in any interleaving, and a
    listener seen to belong to a child stays with it while it lives. None of this needs H. */
module ProtocolShutdown {
  import opened Names
  import opened Aliases
  import opened Registry
  import opened Protocol
  import opened ProtocolInv
  import opened ProtocolChildren

  /** From one state to the next nothing was published and no child was started. */
  ghost predicate NothingNew(s: State, t: State) {
    && t.run == s.run && !t.healthy
    && t.children.Keys <= s.children.Keys
    && (forall a :: a in t.adds && t.adds[a].phase.Published? ==> a in s.adds && s.adds[a].phase.Published?)
  }

  /** The flag is up exactly between the two stores that raise and lower it; so it is
      down at every teardown. */
  predicate FlagIsUp(s: State) {
    s.healthy == s.run.Up?
  }

  lemma OnlyRunMovesFlag(c: Config, s: State, step: Step)
    requires Enabled(c, false, s, step) && !RuntimeFlag(step) && !step.Teardown?
    ensures Apply(c, s, step).healthy == s.healthy && Apply(c, s, step).run == s.run
  {
    hide Accepts, Range, TokensTaken, ReserveRun, Publish, GoPending, Unpublish, DropPending, LookupName;
  }

  lemma FlagStep(c: Config, s: State, step: Step)
    requires FlagIsUp(s) && Enabled(c, false, s, step)
    ensures FlagIsUp(Apply(c, s, step))
  {
    if !RuntimeFlag(step) && !step.Teardown? {
      hide Enabled, Apply;
      OnlyRunMovesFlag(c, s, step);
    }
  }

  predicate Ended(s: State) {
    s.run.Torn? && !s.healthy
  }

  lemma EndedAdvance(c: Config, s: State, step: Step)
    requires Ended(s) && Advances(step) && Enabled(c, false, s, step)
    ensures NothingNew(s, Apply(c, s, step))
  {
  }

  lemma EndedReserve(c: Config, s: State, a: nat, answers: seq<Answer>)
    requires Ended(s) && Enabled(c, false, s, ReserveAddress(a, answers))
    ensures NothingNew(s, Apply(c, s, ReserveAddress(a, answers)))
  {
    hide Accepts, Range, TokensTaken;
  }

  lemma EndedBackOut(c: Config, s: State, step: Step)
    requires Ended(s) && BacksOut(step) && Enabled(c, false, s, step)
    ensures NothingNew(s, Apply(c, s, step))
  {
  }

  lemma EndedTakeOut(c: Config, s: State, step: Step)
    requires Ended(s) && TakesOut(step) && Enabled(c, false, s, step)
    ensures NothingNew(s, Apply(c, s, step))
  {
  }

  lemma EndedOutside(c: Config, s: State, step: Step)
    requires Ended(s) && Outside(step) && Enabled(c, false, s, step)
    ensures NothingNew(s, Apply(c, s, step))
  {
  }

  lemma NoFlagAfterEnd(c: Config, s: State, step: Step)
    requires Ended(s) && Enabled(c, false, s, step)
    ensures !RuntimeFlag(step)
  {
  }

  lemma EndedStep(c: Config, s: State, step: Step)
    requires Ended(s) && Enabled(c, false, s, step)
    ensures NothingNew(s, Apply(c, s, step))
  {
    NoFlagAfterEnd(c, s, step);
    hide Apply, Enabled, NothingNew;
    if Advances(step) {
      EndedAdvance(c, s, step);
    } else if BacksOut(step) {
      EndedBackOut(c, s, step);
    } else if TakesOut(step) {
      EndedTakeOut(c, s, step);
    } else if step.ReserveAddress? {
      EndedReserve(c, s, step.a, step.answers);
    } else {
      EndedOutside(c, s, step);
    }
  }

  /** Nothing is ever published or started again after the teardown, whatever runs on. */
  lemma {:induction false} NothingAfterTeardown(c: Config, s: State, steps: seq<Step>)
    requires Ended(s) && Legal(c, false, s, steps)
    ensures NothingNew(s, After(c, false, s, steps))
    ensures Ended(After(c, false, s, steps))
    decreases |steps|
  {
    if steps != [] {
      EndedStep(c, s, steps[0]);
      var t := Apply(c, s, steps[0]);
      NothingAfterTeardown(c, t, steps[1..]);
    }
  }

  // ----- ownership of listeners -----

  /** The check of the listener's owner has passed and the child still runs. */
  predicate Serving(s: State, a: nat) {
    && a in s.adds && (s.adds[a].phase.Owned? || s.adds[a].phase.Published?)
    && ChildOfAdd(s, a) == Some(Running)
  }

  ghost predicate ServingListens(c: Config, s: State) {
    c.ownersKnown && c.portsKept ==> forall a :: Serving(s, a) ==> Get(s.listener, s.adds[a].addr) == Some(ChildOf(a))
  }

  /** Every add that serves now served before, at the same address. */
  ghost predicate NoNewServer(s: State, t: State) {
    && t.listener == s.listener
    && forall a :: Serving(t, a) ==> Serving(s, a) && t.adds[a].addr == s.adds[a].addr
  }

  lemma ServingSame(c: Config, s: State, t: State)
    requires ServingListens(c, s) && NoNewServer(s, t)
    ensures ServingListens(c, t)
  {
  }

  lemma AdvanceServers(c: Config, s: State, step: Step)
    requires Advances(step) && !step.CheckOwner? && Enabled(c, false, s, step)
    requires s.children.Keys <= s.adds.Keys
    ensures NoNewServer(s, Apply(c, s, step))
  {
    hide ReserveEffect, WatchEffect, TakeAll, Release, Store, LookupName;
  }

  lemma ReserveServers(c: Config, s: State, a: nat, answers: seq<Answer>)
    requires Enabled(c, false, s, ReserveAddress(a, answers))
    ensures NoNewServer(s, Apply(c, s, ReserveAddress(a, answers)))
  {
    hide Accepts, Range, TokensTaken, ReserveRun, LaunchEffect, PublishEffect, WatchEffect, TakeAll, LookupName;
  }

  lemma BackOutFrame(c: Config, s: State, step: Step)
    requires BacksOut(step) && Enabled(c, false, s, step)
    ensures var t := Apply(c, s, step);
            && t.listener == s.listener && t.children == s.children
            && step.a in t.adds && t.adds == s.adds[step.a := t.adds[step.a]]
            && !t.adds[step.a].phase.Owned? && !t.adds[step.a].phase.Published?
  {
    hide ReserveEffect, LaunchEffect, PublishEffect, WatchEffect, TakeAll, LookupName;
  }

  lemma BackOutServers(c: Config, s: State, step: Step)
    requires BacksOut(step) && Enabled(c, false, s, step)
    ensures NoNewServer(s, Apply(c, s, step))
  {
    BackOutFrame(c, s, step);
    hide Apply, Enabled, BacksOut;
  }

  lemma TakeOutServers(c: Config, s: State, step: Step)
    requires TakesOut(step) && Enabled(c, false, s, step)
    ensures NoNewServer(s, Apply(c, s, step))
  {
  }

  lemma FlagServers(c: Config, s: State, step: Step)
    requires RuntimeFlag(step) && Enabled(c, false, s, step)
    ensures NoNewServer(s, Apply(c, s, step))
  {
  }

  lemma CheckServers(c: Config, s: State, a: nat, known: bool)
    requires ServingListens(c, s) && Enabled(c, false, s, CheckOwner(a, known))
    ensures ServingListens(c, Apply(c, s, CheckOwner(a, known)))
  {
  }

  /** A child that runs afterwards ran before, and kept its listeners. */
  lemma OutsideListeners(c: Config, s: State, step: Step, b: nat, x: string)
    requires c.portsKept && Outside(step) && Enabled(c, false, s, step)
    requires ChildOfAdd(Apply(c, s, step), b) == Some(Running)
    ensures ChildOfAdd(s, b) == Some(Running)
    ensures Get(s.listener, x) == Some(ChildOf(b)) ==> Get(Apply(c, s, step).listener, x) == Some(ChildOf(b))
  {
  }

  lemma OutsideServers(c: Config, s: State, step: Step)
    requires ServingListens(c, s) && Outside(step) && Enabled(c, false, s, step)
    ensures ServingListens(c, Apply(c, s, step))
  {
    var t := Apply(c, s, step);
    OutsideFrame(c, s, step);
    if c.ownersKnown && c.portsKept {
      forall b | Serving(t, b) ensures Get(t.listener, t.adds[b].addr) == Some(ChildOf(b)) {
        OutsideListeners(c, s, step, b, t.adds[b].addr);
        hide Apply, Enabled, Outside;
        assert Serving(s, b);
      }
    }
    hide Apply, Enabled, Outside;
  }

  lemma ServingStep(c: Config, s: State, step: Step)
    requires ServingListens(c, s) && Enabled(c, false, s, step) && s.children.Keys <= s.adds.Keys
    ensures ServingListens(c, Apply(c, s, step))
  {
    hide Apply, Enabled, ServingListens, NoNewServer;
    if step.CheckOwner? {
      CheckServers(c, s, step.a, step.known);
    } else if Outside(step) {
      OutsideServers(c, s, step);
    } else {
      if Advances(step) {
        AdvanceServers(c, s, step);
      } else if BacksOut(step) {
        BackOutServers(c, s, step);
      } else if TakesOut(step) {
        TakeOutServers(c, s, step);
      } else if RuntimeFlag(step) {
        FlagServers(c, s, step);
      } else {
        ReserveServers(c, s, step.a, step.answers);
      }
      ServingSame(c, s, Apply(c, s, step));
    }
  }
}
