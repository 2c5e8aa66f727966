/** What becomes of an add: which steps put it on its way back, that there is no return from
    there, and that an add whose ownership question is unanswered, or answered with yes, is
    published and found under every spelling of its name. */
module ProtocolOutcome {
  import opened Names
  import opened Aliases
  import opened Registry
  import opened Protocol
  import opened ProtocolInv
  import opened ProtocolChildren
  import opened ProtocolLedger
  import opened ProtocolTheorems
  import opened ProtocolPublished
  import opened ProtocolKeys
  import L = ListenerOwner
  import R = Readiness

  /** The add has failed: all that is left is to clean up. */
  predicate BackingOut(p: Phase) {
    || p.StopPending? || p.LeavePending? || p.StopUnpublished?
    || p.DropReservation? || p.ReturnAddress? || p.DropMark? || p.Failed?
  }

  predicate HasFailed(s: State, a: nat) {
    a in s.adds && BackingOut(s.adds[a].phase)
  }

  lemma PublishKeepsFailed(s: State, b: nat, a: nat)
    requires HasFailed(s, a) && At(s, b, Owned)
    ensures HasFailed(PublishEffect(s, b), a)
  {
    hide Publish, DropPending;
  }

  lemma NotItsAdvance(c: Config, s: State, step: Step, a: nat)
    requires HasFailed(s, a) && Enabled(c, false, s, step) && Advances(step)
    ensures step.a != a
  {
    hide Quiet, Unclaimed, LookupName;
  }

  lemma AdvanceKeepsFailed(c: Config, s: State, step: Step, a: nat)
    requires HasFailed(s, a) && Enabled(c, false, s, step) && Advances(step)
    ensures HasFailed(Apply(c, s, step), a)
  {
    if step.TryPublish? {
      hide PublishEffect, HasFailed;
      PublishKeepsFailed(s, step.a, a);
    } else {
      NotItsAdvance(c, s, step, a);
      AdvanceFrame(c, s, step);
      hide Apply, Enabled, Advances;
    }
  }

  lemma BackOutKeepsFailed(c: Config, s: State, step: Step, a: nat)
    requires HasFailed(s, a) && Enabled(c, false, s, step) && BacksOut(step)
    ensures HasFailed(Apply(c, s, step), a)
  {
    hide DropPending, LookupName, ReserveEffect, LaunchEffect, PublishEffect, WatchEffect, TakeAll;
  }

  lemma ReserveKeepsFailed(c: Config, s: State, step: Step, a: nat)
    requires HasFailed(s, a) && Enabled(c, false, s, step) && step.ReserveAddress?
    ensures HasFailed(Apply(c, s, step), a)
  {
    ReserveFrame(c, s, step.a, step.answers);
    hide ReserveEffect, ReserveRun;
  }

  lemma OtherKeepsFailed(c: Config, s: State, step: Step, a: nat)
    requires HasFailed(s, a) && Enabled(c, false, s, step) && (RuntimeFlag(step) || TakesOut(step) || Outside(step))
    ensures HasFailed(Apply(c, s, step), a)
  {
    hide TakeAll, Taken, Unpublish, DropPending, LookupName, ReserveEffect, LaunchEffect, PublishEffect;
  }

  lemma {:induction false} FailedForGood(c: Config, s: State, steps: seq<Step>, a: nat)
    requires HasFailed(s, a) && Legal(c, false, s, steps)
    ensures HasFailed(After(c, false, s, steps), a)
    decreases |steps|
  {
    if steps != [] {
      hide Enabled, Apply, HasFailed;
      if Advances(steps[0]) {
        AdvanceKeepsFailed(c, s, steps[0], a);
      } else if BacksOut(steps[0]) {
        BackOutKeepsFailed(c, s, steps[0], a);
      } else if steps[0].ReserveAddress? {
        ReserveKeepsFailed(c, s, steps[0], a);
      } else {
        OtherKeepsFailed(c, s, steps[0], a);
      }
      FailedForGood(c, Apply(c, s, steps[0]), steps[1..], a);
    }
  }

  /** An add that is backing out is not published by any continuation. */
  lemma FailedNeverPublished(c: Config, s: State, steps: seq<Step>, a: nat)
    requires HasFailed(s, a) && Legal(c, false, s, steps)
    ensures !At(After(c, false, s, steps), a, Published)
  {
    hide Enabled, Apply;
    FailedForGood(c, s, steps, a);
  }

  // ----- which steps fail -----

  /** The step of its own call that an add takes next, and why it would not succeed. */
  predicate Refused(s: State, step: Step)
    requires (step.FailConfig? || step.Launch? || step.EndWait? || step.CheckOwner? || step.TryPublish?) && step.a in s.adds
  {
    match step
    case FailConfig(_) => true
    case Launch(_, spawned) => !s.healthy || !spawned
    case EndWait(_, ready) => !ready
    case CheckOwner(a, known) => known && Get(s.listener, s.adds[a].addr) != Some(ChildOf(a))
    case TryPublish(a) => !s.healthy || Get(s.maps.pending, s.adds[a].key) != Some(ProcOf(a, s.adds[a]))
  }

  function NextPhase(p: Phase): Phase {
    match p
    case Admitted => Reserved
    case Reserved => Waiting
    case Waiting => Ready
    case Ready => Owned
    case Owned => Published
    case _ => p
  }

  /** A step of an add's own call either brings it to the next phase or puts it on its way
      back, the latter exactly for the reason given. */
  lemma AddFailsIff(c: Config, s: State, step: Step)
    requires Enabled(c, false, s, step)
    requires step.FailConfig? || step.Launch? || step.EndWait? || step.CheckOwner? || step.TryPublish?
    ensures var t := Apply(c, s, step);
            && step.a in s.adds && step.a in t.adds
            && (HasFailed(t, step.a) <==> Refused(s, step))
            && (!Refused(s, step) ==> t.adds[step.a].phase == NextPhase(s.adds[step.a].phase))
  {
    hide Publish, GoPending, DropPending, Unmark, LookupName;
  }

  /** An allocation gives the add its address exactly when its last answer was acceptable. */
  lemma AllocationFailsIff(c: Config, s: State, a: nat, answers: seq<Answer>)
    requires At(s, a, Admitted) && answers != []
    ensures var t, last := ReserveEffect(c, s, a, answers), answers[|answers| - 1];
            && a in t.adds
            && (HasFailed(t, a) <==> !Accepts(s.maps, s.adds[a].key, last))
            && (Accepts(s.maps, s.adds[a].key, last) ==>
                  At(t, a, Reserved) && t.adds[a].addr == last.addr && t.maps.reserving == s.maps.reserving[last.addr := s.adds[a].key])
  {
    hide Range, TokensTaken, Owners;
  }

  function Offers(answers: seq<Answer>): nat {
    if answers == [] then 0 else Offers(answers[..|answers| - 1]) + if answers[|answers| - 1].Offer? then 1 else 0
  }

  lemma {:induction false} AllOffers(answers: seq<Answer>)
    requires forall i :: 0 <= i < |answers| ==> answers[i].Offer?
    ensures Offers(answers) == |answers|
  {
    if answers != [] {
      AllOffers(answers[..|answers| - 1]);
    }
  }

  /** An allocation takes from the embedder exactly the addresses it was offered, and none
      when there is no embedder's allocator. */
  lemma TakesWhatIsOffered(c: Config, s: State, a: nat, answers: seq<Answer>)
    requires At(s, a, Admitted) && ReserveRun(s.maps, s.adds[a].key, answers)
    ensures ReserveEffect(c, s, a, answers).tokens == s.tokens + if c.hook then Offers(answers) else 0
  {
    AllOffers(answers[..|answers| - 1]);
    hide Range, Accepts, Owners;
  }

  // ----- ownership -----

  /** What the check of the listener lets through: no answer, or the child itself. */
  predicate Accepted(s: State, a: nat, known: bool)
    requires a in s.adds
  {
    known ==> Get(s.listener, s.adds[a].addr) == Some(ChildOf(a))
  }

  lemma CheckPasses(c: Config, s: State, a: nat, known: bool)
    requires Enabled(c, false, s, CheckOwner(a, known)) && Accepted(s, a, known)
    ensures var t := Apply(c, s, CheckOwner(a, known));
            && At(t, a, Owned) && t.adds[a] == s.adds[a].(phase := Owned)
            && t.maps == s.maps && t.healthy == s.healthy && t.run == s.run
  {
  }

  lemma PublishPasses(c: Config, s: State, a: nat)
    requires At(s, a, Owned) && s.healthy && InPendingMap(s, a, s.adds[a])
    ensures Enabled(c, true, s, TryPublish(a)) && Enabled(c, false, s, TryPublish(a))
    ensures var t, d := Apply(c, s, TryPublish(a)), s.adds[a];
            && At(t, a, Published) && t.adds[a] == d.(phase := Published)
            && Get(t.maps.dynamic, d.key) == Some(ProcOf(a, d)) && d.key !in t.maps.pending
            && t.maps.backends == Store(s.maps.backends, d.name, d.addr)
  {
    hide Store;
  }

  /** From a healthy runner and an add at the check, still in `pending`: unanswered, or
      answered with yes, the check and the publication succeed, and afterwards every
      spelling of the name resolves to the add's address; answered with no, the child is
      to be stopped and no continuation publishes it. */
  lemma OwnershipDecides(c: Config, s: State, a: nat, known: bool, spelling: string, steps: seq<Step>)
    requires ValidConfig(c) && ReachableUnderH(c, s) && s.healthy
    requires At(s, a, Ready) && InPendingMap(s, a, s.adds[a]) && Enabled(c, false, s, CheckOwner(a, known))
    requires LookupName(spelling) == s.adds[a].key
    ensures !known || Get(s.listener, s.adds[a].addr) == Some(ChildOf(a)) ==>
              var t := Apply(c, s, CheckOwner(a, known));
              Enabled(c, false, t, TryPublish(a))
              && var u := Apply(c, t, TryPublish(a));
                 && At(u, a, Published) && s.adds[a].key !in u.maps.pending
                 && Get(u.maps.dynamic, s.adds[a].key) == Some(ProcOf(a, s.adds[a]))
                 && Resolve(u.maps.backends, spelling) == Some(s.adds[a].addr)
    ensures known && Get(s.listener, s.adds[a].addr) != Some(ChildOf(a)) ==>
              var t := Apply(c, s, CheckOwner(a, known));
              At(t, a, StopPending) && (Legal(c, false, t, steps) ==> !At(After(c, false, t, steps), a, Published))
  {
    var t := Apply(c, s, CheckOwner(a, known));
    assert Enabled(c, true, s, CheckOwner(a, known));
    if Accepted(s, a, known) {
      CheckPasses(c, s, a, known);
      PublishPasses(c, t, a);
      ReachableHolds(c, s);
      hide Enabled, Apply, UnderH, LookupName, ReachableUnderH, Always;
      StepUnderH(c, s, CheckOwner(a, known));
      StepUnderH(c, t, TryPublish(a));
      ResolvesToEntry(c, Apply(c, t, TryPublish(a)), spelling);
    } else {
      assert At(t, a, StopPending);
      hide Enabled, Apply, ReachableUnderH, LookupName;
      if Legal(c, false, t, steps) {
        FailedNeverPublished(c, t, steps, a);
      }
    }
  }

  /** The step takes the very answer of `listenerOwnedByPID`: on a /proc that shows the
      listening sockets as they are, or cannot be asked, the add passes exactly when
      `dynamicAddressOwned` accepts. */
  lemma CheckFollowsAnswer(c: Config, s: State, a: nat, port: Option<int>, pid: int, files: L.Files, links: Option<L.Links>,
                           sockets: map<string, L.Socket>, ports: map<int, Holder>)
    requires Enabled(c, false, s, CheckOwner(a, L.Known(port, pid, files, links)))
    requires L.Known(port, pid, files, links) ==>
               && L.Shows(files, sockets) && L.OnePerPort(ports, sockets)
               && (links.Some? ==> L.Descriptors(links.value, sockets, a))
               && Get(ports, port.value) == Get(s.listener, s.adds[a].addr)
    ensures var known, t := L.Known(port, pid, files, links), Apply(c, s, CheckOwner(a, L.Known(port, pid, files, links)));
            && (At(t, a, Owned) <==> (known ==> L.OwnedBy(port, pid, files, links)))
            && (At(t, a, StopPending) <==> known && !L.OwnedBy(port, pid, files, links))
  {
    var known := L.Known(port, pid, files, links);
    if known {
      if links.Some? {
        L.OwnedIsHolder(files, links.value, sockets, ports, port.value, a);
      } else {
        NobodyListens(files, sockets, ports, port.value);
      }
    }
  }

  lemma NobodyListens(files: L.Files, sockets: map<string, L.Socket>, ports: map<int, Holder>, port: int)
    requires L.Shows(files, sockets) && L.OnePerPort(ports, sockets) && forall inode :: !L.Listening(files, port, inode)
    ensures port !in ports
  {
    hide L.Listening;
    forall inode | inode in sockets ensures sockets[inode].port != port {
      assert L.Listening(files, sockets[inode].port, inode);
    }
  }

  // ----- the wait for readiness -----

  /** The step takes the verdict of the waiter: when the turn that decides sees the child as
      the protocol has it, "ready" is possible exactly for a child that was not reaped. */
  lemma EndWaitFollowsVerdict(c: Config, s: State, a: nat, backends: Index, turns: seq<R.Turn>, i: nat)
    requires At(s, a, Waiting) && R.Decides(backends, turns, i) && R.FullPass(backends, turns[i])
    requires turns[i].exited.Some? <==> ChildOfAdd(s, a) == Some(Reaped)
    ensures Enabled(c, false, s, EndWait(a, true)) <==> R.Wait(backends, turns) == R.Up
    ensures ChildOfAdd(s, a) == Some(Reaped) ==> R.Wait(backends, turns).Gone?
  {
    R.ReadyMeansPassThenAlive(backends, turns);
    if turns[i].exited.Some? {
      R.ExitWins(backends, turns, i);
    }
  }

  // ----- what a stop may fail to do -----

  predicate SignalFails(step: Step) {
    (step.FinishOwnStop? || step.FinishStop?) && !step.signalled
  }

  lemma UnsignalledAddStep(c: Config, s: State, step: Step)
    requires Enabled(c, false, s, step) && (Advances(step) || step.ReserveAddress? || BacksOut(step))
    ensures Apply(c, s, step).unsignalled == s.unsignalled + if SignalFails(step) then {step.a} else {}
  {
    hide Accepts, Range, TokensTaken, ReserveRun, Publish, GoPending, DropPending, LookupName;
  }

  lemma UnsignalledOtherStep(c: Config, s: State, step: Step)
    requires Enabled(c, false, s, step) && (RuntimeFlag(step) || Outside(step) || TakesOut(step))
    ensures Apply(c, s, step).unsignalled == s.unsignalled + if SignalFails(step) then {step.a} else {}
  {
    hide LookupName, TakeAll, Taken, Unpublish, DropPending;
  }

  lemma UnsignalledStep(c: Config, s: State, step: Step)
    requires Enabled(c, false, s, step)
    ensures Apply(c, s, step).unsignalled == s.unsignalled + if SignalFails(step) then {step.a} else {}
  {
    hide Apply, Enabled;
    if Advances(step) || step.ReserveAddress? || BacksOut(step) {
      UnsignalledAddStep(c, s, step);
    } else {
      UnsignalledOtherStep(c, s, step);
    }
  }

  /** "Could not be signalled" is no excuse that the runner makes up: without a failed
      signal the set stays empty. */
  lemma {:induction false} OnlyFailedSignals(c: Config, s: State, steps: seq<Step>)
    requires Legal(c, false, s, steps)
    ensures forall a :: a in After(c, false, s, steps).unsignalled ==>
              a in s.unsignalled || exists i :: 0 <= i < |steps| && SignalFails(steps[i]) && steps[i].a == a
    decreases |steps|
  {
    if steps != [] {
      UnsignalledStep(c, s, steps[0]);
      hide Enabled, Apply;
      OnlyFailedSignals(c, Apply(c, s, steps[0]), steps[1..]);
      assert forall i :: 0 <= i < |steps[1..]| ==> steps[1..][i] == steps[i + 1];
    }
  }

  // ----- other people's entries -----

  /** The add whose call takes the step, if any. */
  predicate StepOf(step: Step, a: nat) {
    && (step.ReserveAddress? || step.FailConfig? || step.Launch? || step.EndWait? || step.CheckOwner? || step.TryPublish?
        || BacksOut(step))
    && step.a == a
  }

  /** Marks, entries and reservations of every other key are as they were. */
  ghost predicate OthersKept(m: Maps, m': Maps, key: string) {
    && (forall k :: k != key ==> (k in m'.adding <==> k in m.adding)
                                 && Get(m'.pending, k) == Get(m.pending, k) && Get(m'.dynamic, k) == Get(m.dynamic, k))
    && (forall x :: x in m.reserving && m.reserving[x] != key ==> Get(m'.reserving, x) == Get(m.reserving, x))
  }

  lemma AcceptedIsOwn(r: Maps, key: string, ans: Answer)
    requires Accepts(r, key, ans) && key !in r.backends && key !in r.pending
    ensures ans.addr !in r.reserving || r.reserving[ans.addr] == key
  {
  }

  lemma ReserveMaps(c: Config, s: State, a: nat, answers: seq<Answer>)
    requires At(s, a, Admitted) && answers != []
    ensures var last, key := answers[|answers| - 1], s.adds[a].key;
            ReserveEffect(c, s, a, answers).maps == if Accepts(s.maps, key, last) then Reserve(s.maps, last.addr, key) else s.maps
  {
    hide Range, TokensTaken, Owners, Accepts;
  }

  lemma ReserveSparesOthers(c: Config, s: State, a: nat, answers: seq<Answer>)
    requires At(s, a, Admitted) && answers != []
    requires s.adds[a].key !in s.maps.backends && s.adds[a].key !in s.maps.pending
    ensures OthersKept(s.maps, ReserveEffect(c, s, a, answers).maps, s.adds[a].key)
  {
    var last, key := answers[|answers| - 1], s.adds[a].key;
    ReserveMaps(c, s, a, answers);
    hide ReserveEffect;
    if Accepts(s.maps, key, last) {
      AcceptedIsOwn(s.maps, key, last);
    }
  }

  lemma AdvanceSparesOthers(c: Config, s: State, step: Step)
    requires Enabled(c, false, s, step)
    requires step.FailConfig? || step.Launch? || step.EndWait? || step.CheckOwner? || step.TryPublish?
    ensures step.a in s.adds && OthersKept(s.maps, Apply(c, s, step).maps, s.adds[step.a].key)
  {
    hide LookupName, Store, ReserveEffect, WatchEffect, TakeAll;
  }

  lemma StopSparesOthers(c: Config, s: State, step: Step)
    requires Enabled(c, false, s, step) && (step.FinishOwnStop? || step.Releasing?)
    ensures step.a in s.adds && OthersKept(s.maps, Apply(c, s, step).maps, s.adds[step.a].key)
  {
    assert Apply(c, s, step).maps == s.maps;
    hide Apply, Enabled;
  }

  lemma CleanupSparesOthers(c: Config, s: State, step: Step)
    requires Enabled(c, false, s, step) && (step.LeavePendingMap? || step.Unreserving? || step.Unmarking?)
    ensures step.a in s.adds && OthersKept(s.maps, Apply(c, s, step).maps, s.adds[step.a].key)
  {
    hide LookupName, Store, ReserveEffect, LaunchEffect, PublishEffect, WatchEffect, TakeAll;
  }

  /** No step of one add's call, in any run, touches a mark, an entry or a reservation of
      another key; for an allocation this is said of a key that nobody is served under. */
  lemma OthersUntouched(c: Config, s: State, step: Step, a: nat)
    requires Enabled(c, false, s, step) && StepOf(step, a)
    requires step.ReserveAddress? && a in s.adds ==> s.adds[a].key !in s.maps.backends && s.adds[a].key !in s.maps.pending
    ensures a in s.adds && OthersKept(s.maps, Apply(c, s, step).maps, s.adds[a].key)
  {
    assert step.ReserveAddress? ==> step.answers != [];
    hide OthersKept, ReserveEffect, LaunchEffect, PublishEffect, ReserveRun;
    if step.ReserveAddress? {
      ReserveSparesOthers(c, s, a, step.answers);
    } else if BacksOut(step) {
      if step.FinishOwnStop? || step.Releasing? {
        StopSparesOthers(c, s, step);
      } else {
        CleanupSparesOthers(c, s, step);
      }
    } else {
      AdvanceSparesOthers(c, s, step);
    }
  }

  // ----- where the windows open -----

  /** The steps that take an add past its own mark or its place in `pending` before it has
      given up its reservation. */
  predicate OpensWindow(s: State, step: Step, a: nat) {
    && a in s.adds
    && (|| (step.Launch? && step.a == a && (!s.healthy || !step.spawned))
        || (step.TryPublish? && step.a == a && Refused(s, step))
        || (step.LeavePendingMap? && step.a == a))
  }

  predicate OpensErasure(s: State, step: Step, a: nat) {
    step.Launch? && step.a == a && s.healthy && !step.spawned
  }

  lemma AdvanceOpensWindow(c: Config, s: State, step: Step, a: nat)
    requires a in s.adds && Enabled(c, false, s, step) && Advances(step) && !CleaningUp(s.adds[a].phase)
    ensures var t := Apply(c, s, step); a in t.adds && (CleaningUp(t.adds[a].phase) <==> OpensWindow(s, step, a))
  {
    hide Publish, GoPending, DropPending, Unmark, LookupName, Quiet, Unclaimed, Erasing;
  }

  lemma AdvanceOpensErasure(c: Config, s: State, step: Step, a: nat)
    requires a in s.adds && Enabled(c, false, s, step) && Advances(step) && !Erasing(s.adds[a].phase)
    ensures var t := Apply(c, s, step); a in t.adds && (Erasing(t.adds[a].phase) <==> OpensErasure(s, step, a))
  {
    hide Publish, GoPending, DropPending, Unmark, LookupName, Quiet, Unclaimed, CleaningUp;
  }

  lemma BackOutOpensWindow(c: Config, s: State, step: Step, a: nat)
    requires a in s.adds && Enabled(c, false, s, step) && BacksOut(step) && !CleaningUp(s.adds[a].phase)
    ensures var t := Apply(c, s, step); a in t.adds && (CleaningUp(t.adds[a].phase) <==> OpensWindow(s, step, a))
  {
    hide DropPending, LookupName, ReserveEffect, LaunchEffect, PublishEffect, WatchEffect, TakeAll, Erasing;
  }

  lemma BackOutOpensNoErasure(c: Config, s: State, step: Step, a: nat)
    requires a in s.adds && Enabled(c, false, s, step) && BacksOut(step) && !Erasing(s.adds[a].phase)
    ensures var t := Apply(c, s, step); a in t.adds && !Erasing(t.adds[a].phase)
  {
    hide DropPending, LookupName, ReserveEffect, LaunchEffect, PublishEffect, WatchEffect, TakeAll, CleaningUp;
  }

  lemma ReserveOpensNothing(c: Config, s: State, step: Step, a: nat)
    requires a in s.adds && Enabled(c, false, s, step) && step.ReserveAddress?
    ensures var t := Apply(c, s, step);
            && a in t.adds
            && (!CleaningUp(s.adds[a].phase) ==> !CleaningUp(t.adds[a].phase))
            && (!Erasing(s.adds[a].phase) ==> !Erasing(t.adds[a].phase))
  {
    ReserveShape(c, s, step.a, step.answers);
    hide ReserveEffect, ReserveRun;
  }

  lemma OthersOpenNothing(c: Config, s: State, step: Step, a: nat)
    requires a in s.adds && Enabled(c, false, s, step) && (RuntimeFlag(step) || TakesOut(step) || Outside(step))
    ensures a in Apply(c, s, step).adds && Apply(c, s, step).adds[a] == s.adds[a]
  {
    hide TakeAll, Taken, Unpublish, DropPending, LookupName, ReserveEffect, LaunchEffect, PublishEffect;
  }

  lemma SameAdds(c: Config, s: State, step: Step, a: nat)
    requires a in s.adds && Enabled(c, false, s, step)
    ensures a in Apply(c, s, step).adds
  {
    hide Accepts, Range, TokensTaken, ReserveRun, LookupName, Publish, Unpublish, TakeAll, Taken;
  }

  /** Exactly these steps open the window of H: a start that fails or comes too late, a
      refused publication, and leaving `pending`. Only a start that fails while the runner
      is healthy leaves a second delete of the mark ahead. */
  lemma WindowsOpenIff(c: Config, s: State, step: Step, a: nat)
    requires a in s.adds && Enabled(c, false, s, step)
    ensures var t := Apply(c, s, step);
            && a in t.adds
            && (!CleaningUp(s.adds[a].phase) ==> (CleaningUp(t.adds[a].phase) <==> OpensWindow(s, step, a)))
            && (!Erasing(s.adds[a].phase) ==> (Erasing(t.adds[a].phase) <==> OpensErasure(s, step, a)))
  {
    hide Enabled, Apply, CleaningUp, Erasing;
    SameAdds(c, s, step, a);
    if Advances(step) || BacksOut(step) {
      if !CleaningUp(s.adds[a].phase) {
        if Advances(step) {
          AdvanceOpensWindow(c, s, step, a);
        } else {
          BackOutOpensWindow(c, s, step, a);
        }
      }
      if !Erasing(s.adds[a].phase) {
        if Advances(step) {
          AdvanceOpensErasure(c, s, step, a);
        } else {
          BackOutOpensNoErasure(c, s, step, a);
        }
      }
    } else if step.ReserveAddress? {
      ReserveOpensNothing(c, s, step, a);
    } else {
      OthersOpenNothing(c, s, step, a);
    }
  }
}
