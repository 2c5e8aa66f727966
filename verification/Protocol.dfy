/** The dynamic-backend protocol of the subprocess runner as a transition system:
    one step for each region under the runner's mutex, for each store to the lock-free
    `healthy` flag, for the end of each stop, and for what child processes, foreign
    processes and the address allocator may do. One `run` of one runner is modelled. */
module Protocol {
  import opened Names
  import opened Aliases
  import opened Registry

  /** A failed add deletes its admission mark now, a second time, or has none left. */
  datatype MarkLeft = Held | Twice | Gone

  /** Where one `addBackend` call stands; each name is what has been done so far. */
  datatype Phase =
    | Admitted                       // marked in `adding`
    | Reserved                       // has an address
    | Waiting                        // child started, in `pending`
    | Ready                          // dialable, child not seen exited
    | Owned                          // listener checked
    | Published
    | StopPending                    // must stop its child, still in `pending`
    | LeavePending                   // stopped its child, must leave `pending`
    | StopUnpublished                // refused at publication, must stop its child
    | DropReservation(mark: MarkLeft)
    | ReturnAddress(mark: MarkLeft)
    | DropMark(mark: MarkLeft)
    | Failed

  datatype Add = Add(key: string, name: string, addr: string, token: Option<nat>, phase: Phase)

  /** Exited: gone, its ports closed. Reaped: `done` is closed as well. */
  datatype Child = Running | Exited | Reaped

  datatype Holder = ChildOf(id: nat) | Foreign

  /** `Down` covers every point of `run` where `healthy` is false after having been true. */
  datatype RunPc = Starting | Up | Down | Torn | Left

  /** One answer of the allocator, and the owner `addressOwnerLocked` reports for it. */
  datatype Answer = Fault | Offer(addr: string, owner: Option<string>)

  datatype Config = Config(
    base: Plan,            // the static backends of this run
    index: Index,          // the index `run` starts with
    hook: bool,            // Options.ReserveLoopbackAddress is set
    ownersKnown: bool,     // /proc answers every ownership question
    portsKept: bool)       // a child keeps the ports it listens on while it lives

  datatype State = State(
    run: RunPc,
    healthy: bool,
    maps: Maps,
    adds: map<nat, Add>,
    children: map<nat, Child>,
    listener: map<string, Holder>,
    owed: set<nat>,         // taken by a removal or by the teardown, stop not finished
    unsignalled: set<nat>,  // a stop gave up because the signal could not be sent
    selfExited: set<nat>,   // unpublished because the child exited by itself
    tokens: nat,            // addresses taken from the embedder so far
    fired: set<nat>,        // release functions that ran (each is a sync.Once)
    releases: multiset<nat>)// calls that reached the embedder

  datatype Step =
    | RaiseHealthy | LowerHealthy | Restart | Leave | Teardown
    | Admit(a: nat, name: string)
    | ReserveAddress(a: nat, answers: seq<Answer>)
    | FailConfig(a: nat)
    | Launch(a: nat, spawned: bool)
    | EndWait(a: nat, ready: bool)
    | CheckOwner(a: nat, known: bool)
    | TryPublish(a: nat)
    | FinishOwnStop(a: nat, signalled: bool)
    | LeavePendingMap(a: nat)
    | Unreserving(a: nat)
    | Releasing(a: nat)
    | Unmarking(a: nat)
    | Remove(spelling: string)
    | FinishStop(a: nat, signalled: bool)
    | WatchExit(a: nat)
    | Bind(a: nat, addr: string)
    | Unbind(a: nat, addr: string)
    | Exit(a: nat)
    | Reap(a: nat)
    | ForeignBind(addr: string)
    | ForeignClose(addr: string)

  function ProcOf(a: nat, d: Add): Proc {
    Proc(a, d.name, d.addr, d.token)
  }

  /** A later admission of the same key could lose its mark or its reservation to this add. */
  predicate CleaningUp(p: Phase) {
    || p.StopUnpublished?
    || (p.DropReservation? && !p.mark.Held?)
    || (p.ReturnAddress? && p.mark.Twice?)
    || (p.DropMark? && !p.mark.Held?)
  }

  /** Hypothesis H for one key: no earlier failed add of it is still cleaning up. */
  predicate Quiet(adds: map<nat, Add>, key: string) {
    forall a :: a in adds && adds[a].key == key ==> !CleaningUp(adds[a].phase)
  }

  const ATTEMPTS := 8

  predicate Conflicts(r: Maps, key: string, ans: Answer) {
    ans.Offer? && ans.owner.Some? && ans.owner.value in Owners(r, ans.addr) && ans.owner.value != key
  }

  predicate Accepts(r: Maps, key: string, ans: Answer) {
    && ans.Offer?
    && match ans.owner
       case None => Owners(r, ans.addr) == {}
       case Some(o) => o in Owners(r, ans.addr) && o == key
  }

  /** A run of the loop in `reserveDynamicAddressLocked`: every answer but the last conflicts. */
  predicate ReserveRun(r: Maps, key: string, answers: seq<Answer>) {
    && 0 < |answers| <= ATTEMPTS
    && (forall i :: 0 <= i < |answers| - 1 ==> Conflicts(r, key, answers[i]))
    && var last := answers[|answers| - 1];
       last.Fault? || Accepts(r, key, last) || (Conflicts(r, key, last) && |answers| == ATTEMPTS)
  }

  /** How many addresses such a run takes from the embedder's allocator. */
  function TokensTaken(answers: seq<Answer>): nat
    requires answers != []
  {
    if answers[|answers| - 1].Fault? then |answers| - 1 else |answers|
  }

  predicate At(s: State, a: nat, p: Phase) {
    a in s.adds && s.adds[a].phase == p
  }

  function ChildOfAdd(s: State, a: nat): Option<Child> {
    Get(s.children, a)
  }

  predicate Enabled(c: Config, h: bool, s: State, step: Step) {
    match step
    case RaiseHealthy => s.run.Starting?
    case LowerHealthy => s.run.Up?
    case Restart => s.run.Down?
    case Leave => s.run.Starting? || s.run.Down?
    case Teardown => s.run.Down?
    case Admit(a, name) =>
      && a !in s.adds && s.healthy && Unclaimed(s.maps, LookupName(name))
      && (h ==> Quiet(s.adds, LookupName(name)))
    case ReserveAddress(a, answers) => At(s, a, Admitted) && ReserveRun(s.maps, s.adds[a].key, answers)
    case FailConfig(a) => At(s, a, Reserved)
    case Launch(a, spawned) => At(s, a, Reserved)
    case EndWait(a, ready) => At(s, a, Waiting) && (ready ==> ChildOfAdd(s, a) != Some(Reaped))
    case CheckOwner(a, known) => At(s, a, Ready) && (c.ownersKnown ==> known)
    case TryPublish(a) => At(s, a, Owned)
    case FinishOwnStop(a, signalled) =>
      && (At(s, a, StopPending) || At(s, a, StopUnpublished))
      && (signalled ==> ChildOfAdd(s, a) == Some(Reaped))
    case LeavePendingMap(a) => At(s, a, LeavePending)
    case Unreserving(a) => a in s.adds && s.adds[a].phase.DropReservation?
    case Releasing(a) => a in s.adds && s.adds[a].phase.ReturnAddress?
    case Unmarking(a) => a in s.adds && s.adds[a].phase.DropMark?
    case Remove(spelling) => LookupName(spelling) in s.maps.dynamic
    case FinishStop(a, signalled) =>
      a in s.owed && a in s.adds && (signalled ==> ChildOfAdd(s, a) == Some(Reaped))
    case WatchExit(a) => At(s, a, Published) && ChildOfAdd(s, a) == Some(Reaped)
    case Bind(a, addr) => ChildOfAdd(s, a) == Some(Running) && addr !in s.listener
    case Unbind(a, addr) => !c.portsKept && Get(s.listener, addr) == Some(ChildOf(a))
    case Exit(a) => ChildOfAdd(s, a) == Some(Running)
    case Reap(a) => ChildOfAdd(s, a) == Some(Exited)
    case ForeignBind(addr) => addr !in s.listener
    case ForeignClose(addr) => Get(s.listener, addr) == Some(Foreign)
  }

  // the kinds of steps

  predicate RuntimeFlag(step: Step) {
    step.RaiseHealthy? || step.LowerHealthy? || step.Restart? || step.Leave?
  }

  predicate Outside(step: Step) {
    step.Bind? || step.Unbind? || step.Exit? || step.Reap? || step.ForeignBind? || step.ForeignClose?
  }

  predicate Advances(step: Step) {
    || step.Admit? || step.FailConfig? || step.Launch? || step.EndWait? || step.CheckOwner? || step.TryPublish?
  }

  predicate BacksOut(step: Step) {
    step.FinishOwnStop? || step.LeavePendingMap? || step.Unreserving? || step.Releasing? || step.Unmarking?
  }

  predicate TakesOut(step: Step) {
    step.Teardown? || step.Remove? || step.FinishStop? || step.WatchExit?
  }

  function SetPhase(s: State, a: nat, p: Phase): State
    requires a in s.adds
  {
    s.(adds := s.adds[a := s.adds[a].(phase := p)])
  }

  /** A release function: the first call reaches the embedder, later ones do nothing. */
  function Release(s: State, token: Option<nat>): State {
    if token.None? || token.value in s.fired then s
    else s.(fired := s.fired + {token.value}, releases := s.releases + multiset{token.value})
  }

  function GiveUp(s: State, a: nat, signalled: bool): State {
    if signalled then s else s.(unsignalled := s.unsignalled + {a})
  }

  function Range(lo: nat, hi: nat): (r: set<nat>)
    ensures forall t :: t in r <==> lo <= t < hi
    decreases hi - lo
  {
    if lo < hi then Range(lo, hi - 1) + {hi - 1} else {}
  }

  function ReserveEffect(c: Config, s: State, a: nat, answers: seq<Answer>): State
    requires a in s.adds && answers != []
  {
    var d := s.adds[a];
    var last := answers[|answers| - 1];
    var n := if c.hook then TokensTaken(answers) else 0;
    var accepted := Accepts(s.maps, d.key, last);
    var conflicts := Range(s.tokens, s.tokens + if accepted && n > 0 then n - 1 else n);
    var s1 := s.(tokens := s.tokens + n, fired := s.fired + conflicts, releases := s.releases + multiset(conflicts));
    if accepted then
      s1.(maps := Reserve(s.maps, last.addr, d.key),
          adds := s.adds[a := Add(d.key, d.name, last.addr, if c.hook then Some(s.tokens + n - 1) else None, Reserved)])
    else
      SetPhase(s1, a, DropMark(Held))
  }

  function LaunchEffect(s: State, a: nat, spawned: bool): State
    requires a in s.adds
  {
    var d := s.adds[a];
    if !s.healthy then SetPhase(s.(maps := Unmark(s.maps, d.key)), a, DropReservation(Gone))
    else if !spawned then SetPhase(s.(maps := Unmark(s.maps, d.key)), a, DropReservation(Twice))
    else SetPhase(s.(maps := GoPending(s.maps, d.key, ProcOf(a, d)), children := s.children[a := Running]), a, Waiting)
  }

  function PublishEffect(s: State, a: nat): State
    requires a in s.adds
  {
    var d := s.adds[a];
    if !s.healthy then SetPhase(s.(maps := Registry.DropPending(s.maps, d.key, ProcOf(a, d))), a, StopUnpublished)
    else if Get(s.maps.pending, d.key) != Some(ProcOf(a, d)) then SetPhase(s, a, StopUnpublished)
    else SetPhase(s.(maps := Registry.Publish(s.maps, d.key, ProcOf(a, d))), a, Published)
  }

  function WatchEffect(s: State, a: nat): State
    requires a in s.adds
  {
    var d := s.adds[a];
    var taken := Get(s.maps.dynamic, d.key) == Some(ProcOf(a, d));
    s.(maps := Registry.Exited(s.maps, d.key, ProcOf(a, d)),
       selfExited := if taken then s.selfExited + {a} else s.selfExited)
  }

  function AfterReleasing(m: MarkLeft): Phase {
    if m.Gone? then Failed else DropMark(m)
  }

  ghost function Apply(c: Config, s: State, step: Step): State
    requires Enabled(c, false, s, step)
  {
    match step
    case RaiseHealthy => s.(run := Up, healthy := true)
    case LowerHealthy => s.(run := Down, healthy := false)
    case Restart => s.(run := Starting)
    case Leave => s.(run := Left)
    case Teardown => s.(run := Torn, maps := TakeAll(s.maps), owed := s.owed + Taken(s.maps))
    case Admit(a, name) =>
      var key := LookupName(name);
      s.(maps := Mark(s.maps, key), adds := s.adds[a := Add(key, name, "", None, Admitted)])
    case ReserveAddress(a, answers) => ReserveEffect(c, s, a, answers)
    case FailConfig(a) => SetPhase(s, a, DropReservation(Held))
    case Launch(a, spawned) => LaunchEffect(s, a, spawned)
    case EndWait(a, ready) => SetPhase(s, a, if ready then Ready else StopPending)
    case CheckOwner(a, known) =>
      SetPhase(s, a, if known && Get(s.listener, s.adds[a].addr) != Some(ChildOf(a)) then StopPending else Owned)
    case TryPublish(a) => PublishEffect(s, a)
    case FinishOwnStop(a, signalled) =>
      var p := if s.adds[a].phase.StopPending? then LeavePending else DropReservation(Gone);
      SetPhase(GiveUp(Release(s, s.adds[a].token), a, signalled), a, p)
    case LeavePendingMap(a) =>
      SetPhase(s.(maps := Registry.DropPending(s.maps, s.adds[a].key, ProcOf(a, s.adds[a]))), a, DropReservation(Gone))
    case Unreserving(a) =>
      SetPhase(s.(maps := Unreserve(s.maps, s.adds[a].addr, s.adds[a].key)), a, ReturnAddress(s.adds[a].phase.mark))
    case Releasing(a) => SetPhase(Release(s, s.adds[a].token), a, AfterReleasing(s.adds[a].phase.mark))
    case Unmarking(a) => SetPhase(s.(maps := Unmark(s.maps, s.adds[a].key)), a, Failed)
    case Remove(spelling) =>
      var key := LookupName(spelling);
      s.(maps := Unpublish(s.maps, key), owed := s.owed + {s.maps.dynamic[key].id})
    case FinishStop(a, signalled) =>
      GiveUp(Release(s.(owed := s.owed - {a}), s.adds[a].token), a, signalled)
    case WatchExit(a) => WatchEffect(s, a)
    case Bind(a, addr) => s.(listener := s.listener[addr := ChildOf(a)])
    case Unbind(a, addr) => s.(listener := s.listener - {addr})
    case Exit(a) =>
      s.(children := s.children[a := Child.Exited],
         listener := map x | x in s.listener && s.listener[x] != ChildOf(a) :: s.listener[x])
    case Reap(a) => s.(children := s.children[a := Reaped])
    case ForeignBind(addr) => s.(listener := s.listener[addr := Foreign])
    case ForeignClose(addr) => s.(listener := s.listener - {addr})
  }

  ghost predicate ValidConfig(c: Config) {
    WellKeyed(c.base) && Agrees(c.index, c.base)
  }

  /** The state right after line 156: the static index is in place, nothing else is. */
  function Init(c: Config): State {
    State(Starting, false, Maps(c.index, map[], {}, map[], map[]), map[], map[], map[], {}, {}, {}, 0, {}, multiset{})
  }

  ghost predicate Legal(c: Config, h: bool, s: State, steps: seq<Step>)
    decreases |steps|
  {
    steps != [] ==> Enabled(c, h, s, steps[0]) && Legal(c, h, Apply(c, s, steps[0]), steps[1..])
  }

  ghost function After(c: Config, h: bool, s: State, steps: seq<Step>): State
    requires Legal(c, h, s, steps)
    decreases |steps|
  {
    if steps == [] then s else After(c, h, Apply(c, s, steps[0]), steps[1..])
  }
}
