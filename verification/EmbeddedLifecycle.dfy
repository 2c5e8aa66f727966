/** `embeddedRunner.run` against the calls that come in while it runs (go/embedded.go): one
    step for each native call, each region under the mutex, each store to `healthy`, and
    for what the goroutine of the native run and the context do. */
module EmbeddedLifecycle {
  import opened Names

  /** How far `run` has come; each name is what has been done last. */
  datatype Pc =
    | Start | Created | Initialised | Listed | Loaded | Raised | Marked
    | Waiting        // in the select, the native run started
    | Asked          // the context was done, shutdown was called
    | Joined         // the result of the native run was received
    | Cleared        // symbols and thread are unset
    | Leaving        // only the deferred teardown is left, if there is an isolate
    | Done

  datatype Isolate = Missing | Alive | TornDown

  /** The goroutine of the native run and its one-value channel. */
  datatype Native = Idle | Running | Finished(code: int) | Received(code: int)

  datatype State = State(
    pc: Pc, isolate: Isolate, loaded: bool, healthy: bool,
    native: Native, shutdowns: nat,
    calling: Option<nat>)   // the add or remove that holds the mutex, in a native call

  datatype Step =
    | Create(ok: bool)          // locate and load as well
    | InitNative(ok: bool)
    | ListAddresses(ok: bool)
    | SetSymbols
    | Raise
    | MarkReady
    | Spawn
    | NativeReturns(code: int)
    | ContextDone
    | Receive
    | ClearSymbols
    | Lower
    | TearDown
    | CallBegin(call: nat)
    | CallEnd

  function Init(): State {
    State(Start, Missing, false, false, Idle, 0, None)
  }

  predicate Enabled(s: State, step: Step) {
    match step
    case Create(_) => s.pc.Start?
    case InitNative(_) => s.pc.Created?
    case ListAddresses(_) => s.pc.Initialised?
    case SetSymbols => s.pc.Listed? && s.calling.None?
    case Raise => s.pc.Loaded?
    case MarkReady => s.pc.Raised?
    case Spawn => s.pc.Marked?
    case NativeReturns(_) => s.native.Running?
    case ContextDone => s.pc.Waiting?
    case Receive => (s.pc.Waiting? || s.pc.Asked?) && s.native.Finished?
    case ClearSymbols => s.pc.Joined? && s.calling.None?
    case Lower => s.pc.Cleared?
    case TearDown => s.pc.Leaving?
    case CallBegin(_) => s.calling.None? && s.loaded && s.healthy
    case CallEnd => s.calling.Some?
  }

  function Apply(s: State, step: Step): State
    requires Enabled(s, step)
  {
    match step
    case Create(ok) => if ok then s.(pc := Created, isolate := Alive) else s.(pc := Done)
    case InitNative(ok) => s.(pc := if ok then Initialised else Leaving)
    case ListAddresses(ok) => s.(pc := if ok then Listed else Leaving)
    case SetSymbols => s.(pc := Loaded, loaded := true)
    case Raise => s.(pc := Raised, healthy := true)
    case MarkReady => s.(pc := Marked)
    case Spawn => s.(pc := Waiting, native := Running)
    case NativeReturns(code) => s.(native := Finished(code))
    case ContextDone => s.(pc := Asked, shutdowns := s.shutdowns + 1)
    case Receive => s.(pc := Joined, native := Received(s.native.code))
    case ClearSymbols => s.(pc := Cleared, loaded := false)
    case Lower => s.(pc := Leaving, healthy := false)
    case TearDown => s.(pc := Done, isolate := TornDown)
    case CallBegin(call) => s.(calling := Some(call))
    case CallEnd => s.(calling := None)
  }

  /** The steps that enter the native library on the isolate. */
  predicate CallsNative(step: Step) {
    || step.InitNative? || step.ListAddresses? || step.Spawn? || step.ContextDone?
    || step.TearDown? || step.CallBegin?
  }

  predicate SymbolsSet(pc: Pc) {
    pc.Loaded? || pc.Raised? || pc.Marked? || pc.Waiting? || pc.Asked? || pc.Joined?
  }

  predicate Inv(s: State) {
    && (s.isolate.Alive? <==> !s.pc.Start? && !s.pc.Done?)
    && (s.pc.Start? ==> s.isolate.Missing?)
    && s.loaded == SymbolsSet(s.pc)
    && s.healthy == (s.pc.Raised? || s.pc.Marked? || s.pc.Waiting? || s.pc.Asked? || s.pc.Joined? || s.pc.Cleared?)
    && (s.calling.Some? ==> s.loaded)
    && (s.native.Running? || s.native.Finished? <==> s.pc.Waiting? || s.pc.Asked?)
    && (s.pc.Joined? || s.pc.Cleared? ==> s.native.Received?)
    && (s.native.Received? ==> s.pc.Joined? || s.pc.Cleared? || s.pc.Leaving? || s.pc.Done?)
    && s.shutdowns <= (if s.native.Idle? || s.pc.Waiting? then 0 else 1)
    && (s.pc.Asked? ==> s.shutdowns == 1)
  }

  ghost predicate Legal(s: State, steps: seq<Step>)
    decreases |steps|
  {
    steps != [] ==> Enabled(s, steps[0]) && Legal(Apply(s, steps[0]), steps[1..])
  }

  ghost function After(s: State, steps: seq<Step>): State
    requires Legal(s, steps)
    decreases |steps|
  {
    if steps == [] then s else After(Apply(s, steps[0]), steps[1..])
  }

  lemma {:induction false} InvKept(s: State, steps: seq<Step>)
    requires Inv(s) && Legal(s, steps)
    ensures Inv(After(s, steps))
    decreases |steps|
  {
    if steps != [] {
      InvKept(Apply(s, steps[0]), steps[1..]);
    }
  }

  /** In every interleaving the native library is entered on a live isolate only. When the
      isolate is torn down no add or remove is inside it, none can enter it any more, and
      the native run, if it was started, has been joined. */
  lemma NativeCallsAreLive(steps: seq<Step>, step: Step)
    requires Legal(Init(), steps) && Enabled(After(Init(), steps), step)
    ensures var s := After(Init(), steps);
            && (CallsNative(step) ==> s.isolate.Alive?)
            && (step.CallBegin? ==> s.healthy && s.loaded)
            && (s.calling.Some? ==> s.isolate.Alive? && !step.TearDown? && !step.ClearSymbols?)
            && (step.TearDown? ==> !s.loaded && !s.healthy && (s.native.Idle? || s.native.Received?))
  {
    InvKept(Init(), steps);
  }

  /** A `run` that has returned leaves no isolate behind, nothing healthy and no native run
      unjoined, and has asked for shutdown at most once. */
  lemma ReturnsCleanly(steps: seq<Step>)
    requires Legal(Init(), steps) && After(Init(), steps).pc.Done?
    ensures var s := After(Init(), steps);
            && !s.isolate.Alive? && !s.loaded && !s.healthy && s.calling.None?
            && (s.native.Idle? || s.native.Received?) && s.shutdowns <= 1
  {
    InvKept(Init(), steps);
  }

  function CountReceives(steps: seq<Step>): nat {
    if steps == [] then 0 else (if steps[0].Receive? then 1 else 0) + CountReceives(steps[1..])
  }

  predicate HasReceived(s: State) {
    s.native.Received?
  }

  /** The one value of the channel is received exactly once by a run that got that far. */
  lemma {:induction false} ReceivedOnce(s: State, steps: seq<Step>)
    requires Inv(s) && Legal(s, steps)
    ensures CountReceives(steps) == if HasReceived(After(s, steps)) && !HasReceived(s) then 1 else 0
    ensures HasReceived(s) ==> HasReceived(After(s, steps))
    decreases |steps|
  {
    if steps != [] {
      ReceivedOnce(Apply(s, steps[0]), steps[1..]);
    }
  }

  predicate StartFails(step: Step) {
    (step.Create? || step.InitNative? || step.ListAddresses?) && !step.ok
  }

  predicate OnTheWayOut(s: State) {
    (s.pc.Leaving? || s.pc.Done?) && !s.loaded && !s.healthy && s.native.Idle?
  }

  /** A start that fails is never ready and takes no calls: nothing but the teardown is left. */
  lemma FailedStartEnds(s: State, steps: seq<Step>)
    requires OnTheWayOut(s) && s.calling.None? && Legal(s, steps)
    ensures steps == [] || steps == [TearDown]
  {
    if steps != [] {
      assert steps[0] == TearDown;
      assert steps[1..] == [];
      assert steps == [steps[0]] + steps[1..];
    }
  }

  lemma FailingStart(steps: seq<Step>, step: Step, rest: seq<Step>)
    requires Legal(Init(), steps) && Enabled(After(Init(), steps), step) && StartFails(step)
    requires Legal(Apply(After(Init(), steps), step), rest)
    ensures OnTheWayOut(Apply(After(Init(), steps), step)) && (rest == [] || rest == [TearDown])
  {
    InvKept(Init(), steps);
    FailedStartEnds(Apply(After(Init(), steps), step), rest);
  }

  /** A whole run with a call in it: the call enters before the context is done, leaves
      while the native run is being joined, and the run ends torn down. */
  lemma WholeRun(code: int)
    ensures var steps := [Create(true), InitNative(true), ListAddresses(true), SetSymbols, Raise, MarkReady, Spawn,
                          CallBegin(0), ContextDone, NativeReturns(code), Receive, CallEnd, ClearSymbols, Lower, TearDown];
            Legal(Init(), steps)
            && After(Init(), steps) == State(Done, TornDown, false, false, Received(code), 1, None)
  {
    var first := [Create(true), InitNative(true), ListAddresses(true), SetSymbols, Raise, MarkReady, Spawn];
    var second := [CallBegin(0), ContextDone, NativeReturns(code), Receive, CallEnd];
    var third := [ClearSymbols, Lower, TearDown];
    FirstLeg();
    SecondLeg(code);
    ThirdLeg(code);
    JoinRuns(State(Waiting, Alive, true, true, Running, 0, None), second, third);
    JoinRuns(Init(), first, second + third);
    assert first + (second + third)
        == [Create(true), InitNative(true), ListAddresses(true), SetSymbols, Raise, MarkReady, Spawn,
            CallBegin(0), ContextDone, NativeReturns(code), Receive, CallEnd, ClearSymbols, Lower, TearDown];
  }

  lemma FirstLeg()
    ensures var steps := [Create(true), InitNative(true), ListAddresses(true), SetSymbols, Raise, MarkReady, Spawn];
            Legal(Init(), steps) && After(Init(), steps) == State(Waiting, Alive, true, true, Running, 0, None)
  {
    var steps := [Create(true), InitNative(true), ListAddresses(true), SetSymbols, Raise, MarkReady, Spawn];
    assert steps[1..] == [InitNative(true), ListAddresses(true), SetSymbols, Raise, MarkReady, Spawn];
    assert steps[2..] == [ListAddresses(true), SetSymbols, Raise, MarkReady, Spawn] == steps[1..][1..];
    assert steps[3..] == [SetSymbols, Raise, MarkReady, Spawn] == steps[2..][1..];
    assert steps[4..] == [Raise, MarkReady, Spawn] == steps[3..][1..];
    assert steps[5..] == [MarkReady, Spawn] == steps[4..][1..];
    assert steps[6..] == [Spawn] == steps[5..][1..];
    assert steps[6..][1..] == [];
  }

  lemma SecondLeg(code: int)
    ensures var s, steps := State(Waiting, Alive, true, true, Running, 0, None),
                            [CallBegin(0), ContextDone, NativeReturns(code), Receive, CallEnd];
            Legal(s, steps) && After(s, steps) == State(Joined, Alive, true, true, Received(code), 1, None)
  {
    var s := State(Waiting, Alive, true, true, Running, 0, None);
    var s1 := Apply(s, CallBegin(0));
    var s2 := Apply(s1, ContextDone);
    var s3 := Apply(s2, NativeReturns(code));
    var s4 := Apply(s3, Receive);
    var s5 := Apply(s4, CallEnd);
    assert s5 == State(Joined, Alive, true, true, Received(code), 1, None);
    FromFront(s4, CallEnd, []);
    FromFront(s3, Receive, [CallEnd]);
    FromFront(s2, NativeReturns(code), [Receive, CallEnd]);
    FromFront(s1, ContextDone, [NativeReturns(code), Receive, CallEnd]);
    FromFront(s, CallBegin(0), [ContextDone, NativeReturns(code), Receive, CallEnd]);
  }

  lemma FromFront(s: State, step: Step, rest: seq<Step>)
    requires Enabled(s, step) && Legal(Apply(s, step), rest)
    ensures Legal(s, [step] + rest) && After(s, [step] + rest) == After(Apply(s, step), rest)
  {
    assert ([step] + rest)[0] == step && ([step] + rest)[1..] == rest;
  }

  lemma ThirdLeg(code: int)
    ensures var s, steps := State(Joined, Alive, true, true, Received(code), 1, None), [ClearSymbols, Lower, TearDown];
            Legal(s, steps) && After(s, steps) == State(Done, TornDown, false, false, Received(code), 1, None)
  {
    var steps := [ClearSymbols, Lower, TearDown];
    assert steps[1..] == [Lower, TearDown] && steps[1..][1..] == [TearDown] && steps[1..][1..][1..] == [];
  }

  lemma {:induction false} JoinRuns(s: State, before: seq<Step>, after: seq<Step>)
    requires Legal(s, before) && Legal(After(s, before), after)
    ensures Legal(s, before + after) && After(s, before + after) == After(After(s, before), after)
    decreases |before|
  {
    if before == [] {
      assert before + after == after;
    } else {
      assert (before + after)[0] == before[0] && (before + after)[1..] == before[1..] + after;
      JoinRuns(Apply(s, before[0]), before[1..], after);
    }
  }
}
