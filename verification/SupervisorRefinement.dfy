/** Every log of the static supervisor is a run of the protocol's own runtime actor: the
    abstraction of `run` used by the protocol allows all that the loop does. */
module SupervisorRefinement {
  import opened Names
  import opened Aliases
  import opened Supervisor
  import opened Protocol
  import opened ProtocolTheorems
  import opened ProtocolPublished

  function AsSteps(e: Event): seq<Step> {
    match e
    case RaisedHealthy => [RaiseHealthy]
    case LoweredHealthy => [LowerHealthy]
    case TornDown => [Teardown]
    case LeftRunning => [Leave]
    case Slept(_) => [Restart]
    case _ => []
  }

  function Project(log: seq<Event>): seq<Step> {
    if log == [] then [] else Project(log[..|log| - 1]) + AsSteps(log[|log| - 1])
  }

  lemma RuntimeMove(c: Config, h: bool, s: State, st: Sup, e: Event)
    requires s.run == st.run && Replay1(st, e).Some? && AsSteps(e) != []
    ensures var step := AsSteps(e)[0];
            && Enabled(c, h, s, step) && Enabled(c, false, s, step)
            && Apply(c, s, step).run == Replay1(st, e).value.run
  {
  }

  /** Whatever the supervisor logs, with nothing else happening, is a run of the protocol
      that ends where the log ends. */
  lemma {:induction false} LogIsProtocolRun(c: Config, h: bool, log: seq<Event>)
    requires Replay(log).Some?
    ensures Legal(c, h, Init(c), Project(log))
    ensures After(c, h, Init(c), Project(log)).run == Replay(log).value.run
  {
    if log != [] {
      var front, e := log[..|log| - 1], log[|log| - 1];
      LogIsProtocolRun(c, h, front);
      var s := After(c, h, Init(c), Project(front));
      if AsSteps(e) == [] {
        assert Project(log) == Project(front);
        assert Replay(log).value.run == Replay(front).value.run;
      } else {
        RuntimeMove(c, h, s, Replay(front).value, e);
        hide Enabled, Apply, Init, Replay1;
        Extend(c, h, Init(c), Project(front), AsSteps(e)[0]);
        assert Project(log) == Project(front) + [AsSteps(e)[0]];
      }
    }
  }

  /** The part of a run that `run` itself makes. */
  predicate ByRun(step: Step) {
    RuntimeFlag(step) || step.Teardown?
  }

  function RunPart(steps: seq<Step>): seq<Step> {
    if steps == [] then []
    else RunPart(steps[..|steps| - 1]) + if ByRun(steps[|steps| - 1]) then [steps[|steps| - 1]] else []
  }

  lemma {:induction false} RunPartHolds(steps: seq<Step>, i: nat)
    requires i < |steps| && ByRun(steps[i])
    ensures steps[i] in RunPart(steps)
  {
    if i < |steps| - 1 {
      RunPartHolds(steps[..|steps| - 1], i);
    }
  }

  /** A log with a teardown in it ends torn down: the loop does nothing afterwards. */
  lemma {:induction false} TornAtTheEnd(log: seq<Event>)
    requires Replay(log).Some? && Teardown in Project(log)
    ensures Replay(log).value.run.Torn?
  {
    var front, e := log[..|log| - 1], log[|log| - 1];
    if Teardown in Project(front) {
      TornAtTheEnd(front);
    } else {
      assert Teardown in AsSteps(e);
    }
  }

  /** Crash and restart keep the dynamic backends, whatever else goes on between the steps
      of the loop: as long as its log has not ended in a teardown, a backend that was
      published stays published at its address, unless it is removed or its child exits. */
  lemma RetriesKeepDynamics(c: Config, log: seq<Event>, before: seq<Step>, after: seq<Step>, key: string, spelling: string)
    requires ValidConfig(c) && Legal(c, true, Init(c), before + after)
    requires RunPart(before + after) == Project(log) && Replay(log).Some? && !Replay(log).value.run.Torn?
    requires Legal(c, true, Init(c), before)
    requires var s := After(c, true, Init(c), before);
             && key in s.maps.dynamic && LookupName(spelling) == key
             && forall i :: 0 <= i < |after| && EndsPublication(after[i], key, s.maps.dynamic[key].id) ==> after[i].Teardown?
    ensures var s, t := After(c, true, Init(c), before), After(c, true, Init(c), before + after);
            && SameEntry(s, t, key) && s.maps.dynamic[key].id !in t.owed
            && Resolve(t.maps.backends, spelling) == Some(s.maps.dynamic[key].addr)
  {
    var s := After(c, true, Init(c), before);
    hide Enabled, Apply, Init, LookupName, SameEntry, Replay;
    SplitRun(c, Init(c), before, after);
    assert ReachableUnderH(c, s);
    forall i | 0 <= i < |after| ensures !after[i].Teardown? {
      if after[i].Teardown? {
        RunPartHolds(before + after, |before| + i);
        TornAtTheEnd(log);
      }
    }
    hide ReachableUnderH;
    PublishedStays(c, s, after, key, spelling);
  }
}
