/** `Server` by generations (go/server.go): each `Start` makes a generation with its own
    ready channel, done channel and cancel function, and all of them share one set of
    fields. One step for each region under the mutex and each atomic store. */
module ServerLifecycle {
  import opened Names

  /** None is Go's nil error. */
  type Error = Option<string>

  /** How far one `Start` has come; Lowered is between the two stores at lines 80 and 81. */
  datatype Stage = Active | Returned | Marked | Stored | Lowered | Cleared | Canceled | Closed

  datatype Gen = Gen(
    stage: Stage,
    result: Error,            // what `run` returned
    verdict: Option<Error>,   // what was published when the ready channel was closed
    cancelled: bool,
    reported: bool,           // the runner said it was ready
    readyCloses: nat,
    doneCloses: nat)

  /** A WaitReady call that has picked up the ready channel of a generation. */
  datatype Waiter = Watching(gen: nat) | Answered(gen: nat, answer: Error)

  /** A Stop call that has picked up a cancel function and a done channel. */
  datatype Stopper = Holding(cancel: nat, done: nat) | Joining(cancel: nat, done: nat) | Joined(cancel: nat, done: nat, answer: Error)

  /** The fields of `Server`; `cancel`, `done` and `readyCh` are those of the last generation. */
  datatype State = State(
    started: bool, ready: bool, gens: seq<Gen>,
    readyClosed: bool, readyErr: Error, runErr: Option<Error>,
    waiters: map<nat, Waiter>, stoppers: map<nat, Stopper>)

  datatype Step =
    | Begin
    | RunnerReady(g: nat)
    | Return(g: nat, result: Error)
    | MarkTail(g: nat)
    | StoreErr(g: nat)
    | LowerStarted(g: nat)
    | ClearReady(g: nat)
    | CancelTail(g: nat)
    | CloseDone(g: nat)
    | WaitBegin(w: nat)
    | WaitRead(w: nat)
    | StopBegin(p: nat)
    | StopCancel(p: nat)
    | StopRead(p: nat)

  function Init(): State {
    State(false, false, [], false, None, None, map[], map[])
  }

  predicate At(s: State, g: nat, stage: Stage) {
    g < |s.gens| && s.gens[g].stage == stage
  }

  /** No generation is between its last two stores. */
  predicate Prompt(s: State) {
    forall g :: 0 <= g < |s.gens| ==> !s.gens[g].stage.Lowered?
  }

  predicate Enabled(h: bool, s: State, step: Step) {
    match step
    case Begin => !s.started && (h ==> Prompt(s))
    case RunnerReady(g) => At(s, g, Active)
    case Return(g, result) => At(s, g, Active)
    case MarkTail(g) => At(s, g, Returned)
    case StoreErr(g) => At(s, g, Marked)
    case LowerStarted(g) => At(s, g, Stored)
    case ClearReady(g) => At(s, g, Lowered)
    case CancelTail(g) => At(s, g, Cleared)
    case CloseDone(g) => At(s, g, Canceled)
    case WaitBegin(w) => w !in s.waiters && s.gens != []
    case WaitRead(w) =>
      w in s.waiters && s.waiters[w].Watching? && s.waiters[w].gen < |s.gens| && s.gens[s.waiters[w].gen].verdict.Some?
    case StopBegin(p) => p !in s.stoppers && s.started && s.gens != []
    case StopCancel(p) => p in s.stoppers && s.stoppers[p].Holding? && s.stoppers[p].cancel < |s.gens|
    case StopRead(p) =>
      p in s.stoppers && s.stoppers[p].Joining? && s.stoppers[p].done < |s.gens| && s.gens[s.stoppers[p].done].doneCloses > 0
  }

  function Advance(s: State, g: nat, stage: Stage): State
    requires g < |s.gens|
  {
    s.(gens := s.gens[g := s.gens[g].(stage := stage)])
  }

  /** `markReady`: acts on the last generation's channel, and only while it is open. */
  function MarkReady(s: State, err: Error): State {
    if s.gens == [] || s.readyClosed then s
    else
      var last := |s.gens| - 1;
      s.(readyErr := err,
         ready := s.ready || err.None?,
         readyClosed := true,
         gens := s.gens[last := s.gens[last].(verdict := Some(err), readyCloses := s.gens[last].readyCloses + 1)])
  }

  const CANCELED := "context canceled"

  /** What `Stop` makes of the stored error: a cancelled run is no failure. */
  function Reported(stored: Option<Error>): Error {
    if stored.None? || stored.value == Some(CANCELED) then None else stored.value
  }

  function Apply(s: State, step: Step): State
    requires Enabled(false, s, step)
  {
    match step
    case Begin =>
      s.(started := true, ready := false, runErr := None, readyClosed := false, readyErr := None,
         gens := s.gens + [Gen(Active, None, None, false, false, 0, 0)])
    case RunnerReady(g) => MarkReady(s.(gens := s.gens[g := s.gens[g].(reported := true)]), None)
    case Return(g, result) => s.(gens := s.gens[g := s.gens[g].(stage := Returned, result := result)])
    case MarkTail(g) => Advance(MarkReady(s, s.gens[g].result), g, Marked)
    case StoreErr(g) => Advance(s, g, Stored).(runErr := Some(s.gens[g].result))
    case LowerStarted(g) => Advance(s, g, Lowered).(started := false)
    case ClearReady(g) => Advance(s, g, Cleared).(ready := false)
    case CancelTail(g) => s.(gens := s.gens[g := s.gens[g].(stage := Canceled, cancelled := true)])
    case CloseDone(g) => s.(gens := s.gens[g := s.gens[g].(stage := Closed, doneCloses := s.gens[g].doneCloses + 1)])
    case WaitBegin(w) => s.(waiters := s.waiters[w := Watching(|s.gens| - 1)])
    case WaitRead(w) => s.(waiters := s.waiters[w := Answered(s.waiters[w].gen, s.readyErr)])
    case StopBegin(p) => s.(stoppers := s.stoppers[p := Holding(|s.gens| - 1, |s.gens| - 1)])
    case StopCancel(p) =>
      var q := s.stoppers[p];
      s.(gens := s.gens[q.cancel := s.gens[q.cancel].(cancelled := true)],
         stoppers := s.stoppers[p := Joining(q.cancel, q.done)])
    case StopRead(p) =>
      var q := s.stoppers[p];
      s.(stoppers := s.stoppers[p := Joined(q.cancel, q.done, Reported(s.runErr))])
  }

  // ----- what every run keeps -----

  /** Before `started` falls. */
  predicate Holds(stage: Stage) {
    stage.Active? || stage.Returned? || stage.Marked? || stage.Stored?
  }

  predicate GenOk(d: Gen) {
    && d.readyCloses == (if d.verdict.Some? then 1 else 0)
    && d.doneCloses == (if d.stage.Closed? then 1 else 0)
    && (!d.stage.Active? && !d.stage.Returned? ==> d.verdict.Some?)
    && (d.stage.Active? || d.stage.Returned? ==> (d.verdict.Some? <==> d.reported))
    && (d.verdict.Some? ==> d.verdict.value == if d.reported then None else d.result)
  }

  /** What the error field holds: nothing until the last generation has stored its own. */
  function LastStored(last: Gen): Option<Error> {
    if last.stage.Active? || last.stage.Returned? || last.stage.Marked? then None else Some(last.result)
  }

  ghost predicate Fields(s: State) {
    && (s.gens == [] ==> !s.started && !s.readyClosed)
    && (!s.readyClosed ==> s.readyErr == None)
    && (s.gens != [] ==>
          var d := s.gens[|s.gens| - 1];
          && s.started == Holds(d.stage)
          && s.readyClosed == d.verdict.Some?
          && (s.readyClosed ==> Some(s.readyErr) == d.verdict)
          && s.runErr == LastStored(d))
  }

  ghost predicate Gens(s: State) {
    && (forall g :: 0 <= g < |s.gens| ==> GenOk(s.gens[g]))
    && (forall g :: 0 <= g < |s.gens| - 1 ==> !Holds(s.gens[g].stage))
  }

  ghost predicate Callers(s: State) {
    && (forall w :: w in s.waiters ==> s.waiters[w].gen < |s.gens|)
    && (forall p :: p in s.stoppers ==> s.stoppers[p].cancel == s.stoppers[p].done < |s.gens|)
    && (forall p :: p in s.stoppers && !s.stoppers[p].Holding? ==> s.gens[s.stoppers[p].cancel].cancelled)
  }

  ghost predicate Inv(s: State) {
    Fields(s) && Gens(s) && Callers(s)
  }

  lemma FieldsStep(s: State, step: Step)
    requires Inv(s) && Enabled(false, s, step)
    ensures Fields(Apply(s, step))
  {
  }

  ghost predicate GensOk(s: State) {
    forall g :: 0 <= g < |s.gens| ==> GenOk(s.gens[g])
  }

  lemma GensOkStep(s: State, step: Step)
    requires Inv(s) && Enabled(false, s, step)
    ensures GensOk(Apply(s, step))
  {
    hide Callers;
  }

  lemma OneHolderStep(s: State, step: Step)
    requires Inv(s) && Enabled(false, s, step)
    ensures var t := Apply(s, step); forall g :: 0 <= g < |t.gens| - 1 ==> !Holds(t.gens[g].stage)
  {
    hide Callers, GenOk;
  }

  lemma GensStep(s: State, step: Step)
    requires Inv(s) && Enabled(false, s, step)
    ensures Gens(Apply(s, step))
  {
    GensOkStep(s, step);
    OneHolderStep(s, step);
    hide Apply, Enabled, Holds, GenOk, Fields, Callers;
  }

  lemma CallersStep(s: State, step: Step)
    requires Callers(s) && Enabled(false, s, step)
    ensures Callers(Apply(s, step))
  {
  }

  ghost predicate Legal(h: bool, s: State, steps: seq<Step>)
    decreases |steps|
  {
    steps != [] ==> Enabled(h, s, steps[0]) && Legal(h, Apply(s, steps[0]), steps[1..])
  }

  ghost function After(h: bool, s: State, steps: seq<Step>): State
    requires Legal(h, s, steps)
    decreases |steps|
  {
    if steps == [] then s else After(h, Apply(s, steps[0]), steps[1..])
  }

  ghost predicate Reachable(s: State) {
    exists steps :: Legal(false, Init(), steps) && s == After(false, Init(), steps)
  }

  lemma {:induction false} InvKept(s: State, steps: seq<Step>)
    requires Inv(s) && Legal(false, s, steps)
    ensures Inv(After(false, s, steps))
    decreases |steps|
  {
    if steps != [] {
      FieldsStep(s, steps[0]);
      GensStep(s, steps[0]);
      CallersStep(s, steps[0]);
      hide Fields, Gens, Callers, Enabled, Apply;
      InvKept(Apply(s, steps[0]), steps[1..]);
    }
  }

  lemma ReachableInv(s: State)
    requires Reachable(s)
    ensures Inv(s)
  {
    var steps :| Legal(false, Init(), steps) && s == After(false, Init(), steps);
    InvKept(Init(), steps);
  }

  /** At most one `run` is active, it belongs to the last generation, and `started` is
      true all the while. */
  lemma OneActiveRun(s: State, g: nat)
    requires Reachable(s) && At(s, g, Active)
    ensures g == |s.gens| - 1 && s.started
    ensures forall k :: At(s, k, Active) ==> k == g
  {
    ReachableInv(s);
  }

  /** Both channels of a generation are closed exactly once: the ready channel by the time
      `Start` has stored its error, the done channel as its very last act. */
  lemma ChannelsClosedOnce(s: State, g: nat)
    requires Reachable(s) && g < |s.gens|
    ensures s.gens[g].readyCloses <= 1 && s.gens[g].doneCloses <= 1
    ensures s.gens[g].readyCloses == 1 <==> s.gens[g].verdict.Some?
    ensures s.gens[g].doneCloses == 1 <==> s.gens[g].stage.Closed?
    ensures !s.gens[g].stage.Active? && !s.gens[g].stage.Returned? ==> s.gens[g].readyCloses == 1
  {
    ReachableInv(s);
  }

  /** A published verdict never changes. */
  lemma VerdictWriteOnce(s: State, step: Step, g: nat)
    requires Reachable(s) && Enabled(false, s, step) && g < |s.gens| && s.gens[g].verdict.Some?
    ensures g < |Apply(s, step).gens| && Apply(s, step).gens[g].verdict == s.gens[g].verdict
  {
    ReachableInv(s);
  }

  /** What a waiter is told: the verdict of the last generation, nil while that has none.
      So it is its own generation's verdict if no later `Start` has begun. */
  lemma WaiterIsTold(s: State, w: nat)
    requires Reachable(s) && Enabled(false, s, WaitRead(w))
    ensures var last, told := s.gens[|s.gens| - 1], Apply(s, WaitRead(w)).waiters[w].answer;
            told == if last.verdict.Some? then last.verdict.value else None
    ensures s.waiters[w].gen == |s.gens| - 1 ==>
              Some(Apply(s, WaitRead(w)).waiters[w].answer) == s.gens[s.waiters[w].gen].verdict
  {
    ReachableInv(s);
  }

  /** The gap in it: a waiter of a generation that failed is told nil when the next
      `Start` begins before it reads. */
  lemma FailureReadAsReady(s: State, w: nat, error: string)
    requires Reachable(s) && Enabled(false, s, WaitRead(w)) && Enabled(false, s, Begin)
    requires s.gens[s.waiters[w].gen].verdict == Some(Some(error))
    ensures Enabled(false, Apply(s, Begin), WaitRead(w))
    ensures Apply(Apply(s, Begin), WaitRead(w)).waiters[w] == Answered(s.waiters[w].gen, None)
  {
  }

  /** `Stop` cancels and joins one and the same generation, but it reports what the last
      generation has stored, nil while that has stored nothing; cancellation counts as
      success. So it is its own generation's result if no later `Start` has begun. */
  lemma StopJoinsItsGeneration(s: State, p: nat)
    requires Reachable(s) && Enabled(false, s, StopRead(p))
    ensures s.stoppers[p].cancel == s.stoppers[p].done && s.gens[s.stoppers[p].done].stage.Closed?
    ensures Apply(s, StopRead(p)).stoppers[p].answer == Reported(LastStored(s.gens[|s.gens| - 1]))
    ensures s.stoppers[p].done == |s.gens| - 1 ==>
              Apply(s, StopRead(p)).stoppers[p].answer == Reported(Some(s.gens[s.stoppers[p].done].result))
  {
    ReachableInv(s);
  }

  /** When a generation's published verdict is nil: the runner had said it was ready, or
      `run` returned nil without ever having said so. Only the first is readiness. */
  lemma NilVerdictIff(s: State, g: nat)
    requires Reachable(s) && g < |s.gens| && s.gens[g].verdict.Some?
    ensures s.gens[g].verdict == Some(None) <==>
              s.gens[g].reported || (!s.gens[g].stage.Active? && !s.gens[g].stage.Returned? && s.gens[g].result == None)
  {
    ReachableInv(s);
  }

  lemma {:induction false} Extend(h: bool, s: State, steps: seq<Step>, step: Step)
    requires Legal(h, s, steps)
    requires Enabled(h, After(h, s, steps), step) && Enabled(false, After(h, s, steps), step)
    ensures Legal(h, s, steps + [step])
    ensures After(h, s, steps + [step]) == Apply(After(h, s, steps), step)
    decreases |steps|
  {
    var longer := steps + [step];
    if steps == [] {
      assert longer[0] == step && longer[1..] == [];
    } else {
      assert Enabled(false, s, steps[0]);
      hide Enabled, Apply;
      Extend(h, Apply(s, steps[0]), steps[1..], step);
      assert longer[0] == steps[0] && longer[1..] == steps[1..] + [step];
    }
  }

  lemma ReachableNext(s: State, step: Step)
    requires Reachable(s) && Enabled(false, s, step)
    ensures Reachable(Apply(s, step))
  {
    var steps :| Legal(false, Init(), steps) && s == After(false, Init(), steps);
    hide Enabled, Apply, Init;
    Extend(false, Init(), steps, step);
  }

  lemma InitReachable()
    ensures Reachable(Init())
  {
    assert Legal(false, Init(), []) && After(false, Init(), []) == Init();
  }

  /** The second way happens: a first `Start` whose `run` returns nil at once is published
      as ready while it is still counted as started. */
  lemma NilReturnLooksReady()
    ensures exists s :: Reachable(s) && s.gens != [] && s.gens[0].verdict == Some(None) && !s.gens[0].reported
                        && s.started && s.ready
  {
    InitReachable();
    hide Reachable;
    ReachableNext(Init(), Begin);
    var s1 := Apply(Init(), Begin);
    ReachableNext(s1, Return(0, None));
    var s2 := Apply(s1, Return(0, None));
    ReachableNext(s2, MarkTail(0));
    var s3 := Apply(s2, MarkTail(0));
    assert s3.gens[0].verdict == Some(None) && !s3.gens[0].reported && s3.started && s3.ready;
  }

  /** A run into the gap of `FailureReadAsReady`, for every error: a waiter picks up the
      first generation's channel, that generation fails, and the next `Start` may begin. */
  lemma FailedWaiterIsReachable(error: string)
    ensures exists s :: Reachable(s) && Enabled(false, s, WaitRead(0)) && Enabled(false, s, Begin)
                        && s.gens[s.waiters[0].gen].verdict == Some(Some(error))
  {
    InitReachable();
    hide Reachable;
    ReachableNext(Init(), Begin);
    var s1 := Apply(Init(), Begin);
    ReachableNext(s1, WaitBegin(0));
    var s2 := Apply(s1, WaitBegin(0));
    ReachableNext(s2, Return(0, Some(error)));
    var s3 := Apply(s2, Return(0, Some(error)));
    ReachableNext(s3, MarkTail(0));
    var s4 := Apply(s3, MarkTail(0));
    ReachableNext(s4, StoreErr(0));
    var s5 := Apply(s4, StoreErr(0));
    ReachableNext(s5, LowerStarted(0));
    var s6 := Apply(s5, LowerStarted(0));
    assert s6.waiters[0] == Watching(0) && s6.gens[0].verdict == Some(Some(error)) && !s6.started;
  }

  lemma TailDown(s: State) returns (t: State)
    requires Reachable(s) && At(s, 0, Returned) && |s.gens| == 1
    ensures Reachable(t) && At(t, 0, Lowered) && |t.gens| == 1 && !t.started
    ensures t.gens[0].result == s.gens[0].result && t.gens[0].doneCloses == s.gens[0].doneCloses
    ensures t.stoppers == s.stoppers
  {
    hide Reachable;
    ReachableNext(s, MarkTail(0));
    var s1 := Apply(s, MarkTail(0));
    ReachableNext(s1, StoreErr(0));
    var s2 := Apply(s1, StoreErr(0));
    ReachableNext(s2, LowerStarted(0));
    t := Apply(s2, LowerStarted(0));
  }

  lemma TailClosed(s: State) returns (t: State)
    requires Reachable(s) && At(s, 0, Lowered) && |s.gens| == 1
    ensures Reachable(t) && At(t, 0, Closed) && |t.gens| == 1 && t.started == s.started
    ensures t.gens[0].result == s.gens[0].result && t.gens[0].doneCloses == s.gens[0].doneCloses + 1
    ensures t.stoppers == s.stoppers
  {
    hide Reachable;
    ReachableNext(s, ClearReady(0));
    var s1 := Apply(s, ClearReady(0));
    ReachableNext(s1, CancelTail(0));
    var s2 := Apply(s1, CancelTail(0));
    ReachableNext(s2, CloseDone(0));
    t := Apply(s2, CloseDone(0));
  }

  /** The generation has stored what its `run` returned. */
  predicate HasStored(d: Gen) {
    !d.stage.Active? && !d.stage.Returned? && !d.stage.Marked?
  }

  /** What a joined `Stop` answers: nil exactly when the last generation has stored nothing,
      nil, or a cancellation, and otherwise just what that generation's `run` returned. */
  lemma StopAnswers(s: State, p: nat)
    requires Reachable(s) && Enabled(false, s, StopRead(p))
    ensures var last, answer := s.gens[|s.gens| - 1], Apply(s, StopRead(p)).stoppers[p].answer;
            && (answer == None <==> !HasStored(last) || last.result == None || last.result == Some("context canceled"))
            && (answer != None ==> answer == last.result)
  {
    ReachableInv(s);
  }

  /** A `Stop` that joins, or has joined, has cancelled its generation. */
  lemma StopHasCancelled(s: State, p: nat)
    requires Reachable(s) && p in s.stoppers && !s.stoppers[p].Holding?
    ensures s.stoppers[p].cancel < |s.gens| && s.gens[s.stoppers[p].cancel].cancelled
    ensures s.stoppers[p].cancel == s.stoppers[p].done
  {
    ReachableInv(s);
  }

  /** A run in which a stopped generation returns the cancellation and `Stop` answers nil. */
  lemma CancelledStopSucceeds()
    ensures exists s :: Reachable(s) && Enabled(false, s, StopRead(0)) && s.stoppers[0].done == |s.gens| - 1
                        && s.gens[0].result == Some("context canceled") && Apply(s, StopRead(0)).stoppers[0].answer == None
  {
    var s := StoppedRun(Some("context canceled"));
    StopAnswers(s, 0);
  }

  /** A first generation stopped while it runs, its `run` returning this, and torn down. */
  lemma StoppedRun(result: Error) returns (s: State)
    ensures Reachable(s) && Enabled(false, s, StopRead(0)) && Enabled(false, s, Begin) && |s.gens| == 1
    ensures s.stoppers[0] == Joining(0, 0) && s.gens[0].result == result && s.gens[0].doneCloses == 1
  {
    InitReachable();
    hide Reachable;
    ReachableNext(Init(), Begin);
    var s1 := Apply(Init(), Begin);
    ReachableNext(s1, StopBegin(0));
    var s2 := Apply(s1, StopBegin(0));
    ReachableNext(s2, StopCancel(0));
    var s3 := Apply(s2, StopCancel(0));
    ReachableNext(s3, Return(0, result));
    var lowered := TailDown(Apply(s3, Return(0, result)));
    s := TailClosed(lowered);
  }

  /** For every error: a `Stop` joins a generation that failed with it, the next `Start`
      begins before it reads, and it reports success. */
  lemma FailureStopsAsSuccess(error: string)
    ensures exists s :: Reachable(s) && Enabled(false, s, StopRead(0)) && s.gens[s.stoppers[0].done].result == Some(error)
                        && Apply(s, StopRead(0)).stoppers[0].answer == None
  {
    var s := StoppedRun(Some(error));
    hide Reachable;
    ReachableNext(s, Begin);
    var t := Apply(s, Begin);
    assert t.stoppers[0] == Joining(0, 0) && t.gens[0].result == Some(error) && t.gens[0].doneCloses == 1;
    assert t.runErr == None;
  }

  // ----- the ready flag -----

  /** While a generation holds `started`, the flag says whether its verdict was nil. */
  ghost predicate ReadyIsVerdict(s: State) {
    s.gens != [] && Holds(s.gens[|s.gens| - 1].stage) ==> (s.ready <==> s.gens[|s.gens| - 1].verdict == Some(None))
  }

  ghost predicate OnlyLastLowered(s: State) {
    forall g :: 0 <= g < |s.gens| - 1 ==> !s.gens[g].stage.Lowered?
  }

  ghost predicate Clear(s: State) {
    Inv(s) && ReadyIsVerdict(s) && OnlyLastLowered(s)
  }

  lemma ReadyStep(s: State, step: Step)
    requires Clear(s) && Enabled(true, s, step)
    ensures Enabled(false, s, step) && ReadyIsVerdict(Apply(s, step)) && OnlyLastLowered(Apply(s, step))
  {
  }

  lemma {:induction false} ClearKept(s: State, steps: seq<Step>)
    requires Clear(s) && Legal(true, s, steps)
    ensures Clear(After(true, s, steps))
    decreases |steps|
  {
    if steps != [] {
      ReadyStep(s, steps[0]);
      FieldsStep(s, steps[0]);
      GensStep(s, steps[0]);
      CallersStep(s, steps[0]);
      hide Fields, Gens, Callers, Enabled, Apply, ReadyIsVerdict, OnlyLastLowered;
      ClearKept(Apply(s, steps[0]), steps[1..]);
    }
  }

  /** Some continuation whose later starts are prompt leaves the flag wrong. */
  ghost predicate Breaks(s: State) {
    exists steps :: Legal(true, s, steps) && !ReadyIsVerdict(After(true, s, steps))
  }

  lemma BreaksLater(s: State, step: Step)
    requires Enabled(true, s, step) && Enabled(false, s, step) && Breaks(Apply(s, step))
    ensures Breaks(s)
  {
    hide Enabled, Apply, ReadyIsVerdict;
    var rest :| Legal(true, Apply(s, step), rest) && !ReadyIsVerdict(After(true, Apply(s, step), rest));
    var steps := [step] + rest;
    assert steps[0] == step && steps[1..] == rest;
    assert Legal(true, s, steps);
  }

  lemma ClearNeverBreaks(s: State)
    requires Clear(s)
    ensures !Breaks(s)
  {
    forall steps | Legal(true, s, steps) ensures ReadyIsVerdict(After(true, s, steps)) {
      ClearKept(s, steps);
    }
  }

  ghost predicate PromptlyReachable(s: State) {
    exists steps :: Legal(true, Init(), steps) && s == After(true, Init(), steps)
  }

  lemma PromptIsClear(s: State)
    requires PromptlyReachable(s)
    ensures Clear(s)
  {
    var steps :| Legal(true, Init(), steps) && s == After(true, Init(), steps);
    ClearKept(Init(), steps);
  }

  /** A new `Start` clears the flag, its runner becomes ready and raises it, and the tail
      of the old `Start` lowers it again. */
  lemma StaleClear(s: State, g: nat)
    requires Inv(s) && Enabled(false, s, Begin) && At(s, g, Lowered)
    ensures Breaks(Apply(s, Begin))
  {
    var t := Apply(s, Begin);
    var n := |s.gens|;
    assert Enabled(true, t, RunnerReady(n)) && At(t, g, Lowered);
    var u := Apply(t, RunnerReady(n));
    assert u.gens[n].verdict == Some(None) && u.gens[n].stage.Active? && At(u, g, Lowered) && |u.gens| == n + 1;
    assert Enabled(true, u, ClearReady(g));
    var v := Apply(u, ClearReady(g));
    assert !v.ready && v.gens[n] == u.gens[n] && |v.gens| == n + 1;
    assert !ReadyIsVerdict(v);
    assert Legal(true, v, []) && After(true, v, []) == v;
    assert Breaks(v);
    hide Apply, Enabled, ReadyIsVerdict, Breaks;
    BreaksLater(u, ClearReady(g));
    BreaksLater(t, RunnerReady(n));
  }

  /** A `Start` leaves the ready flag trustworthy, whatever happens next, if and only if no
      earlier `Start` is between its last two stores. */
  lemma StartSafeIffPrompt(s: State)
    requires PromptlyReachable(s) && Enabled(false, s, Begin)
    ensures !Breaks(Apply(s, Begin)) <==> Prompt(s)
  {
    PromptIsClear(s);
    if Prompt(s) {
      ReadyStep(s, Begin);
      FieldsStep(s, Begin);
      GensStep(s, Begin);
      CallersStep(s, Begin);
      hide Fields, Gens, Callers, Apply, ReadyIsVerdict, OnlyLastLowered, Breaks;
      ClearNeverBreaks(Apply(s, Begin));
    } else {
      var g :| 0 <= g < |s.gens| && s.gens[g].stage.Lowered?;
      hide Apply, Breaks;
      StaleClear(s, g);
    }
  }

  lemma PromptNext(s: State, step: Step)
    requires PromptlyReachable(s) && Enabled(true, s, step) && Enabled(false, s, step)
    ensures PromptlyReachable(Apply(s, step))
  {
    var steps :| Legal(true, Init(), steps) && s == After(true, Init(), steps);
    hide Enabled, Apply, Init;
    Extend(true, Init(), steps, step);
  }

  /** The window is real: it opens on the way out of the very first `Start`. */
  lemma StaleWindowIsReachable()
    ensures exists s :: PromptlyReachable(s) && Enabled(false, s, Begin) && !Prompt(s)
  {
    assert Legal(true, Init(), []) && After(true, Init(), []) == Init();
    assert PromptlyReachable(Init());
    hide PromptlyReachable;
    PromptNext(Init(), Begin);
    var s1 := Apply(Init(), Begin);
    PromptNext(s1, Return(0, None));
    var s2 := Apply(s1, Return(0, None));
    PromptNext(s2, MarkTail(0));
    var s3 := Apply(s2, MarkTail(0));
    PromptNext(s3, StoreErr(0));
    var s4 := Apply(s3, StoreErr(0));
    PromptNext(s4, LowerStarted(0));
    var s5 := Apply(s4, LowerStarted(0));
    assert At(s5, 0, Lowered) && !s5.started;
    assert s5.gens[0].stage.Lowered?;
  }
}
