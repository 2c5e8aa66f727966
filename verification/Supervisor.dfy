/** The loop of `subprocessRunner.run` that starts, watches and restarts the static child
    (go/subprocess.go, lines 109-249). What the world does is a script of attempts; what
    the loop does is written to a log, and a log is judged by a replay that knows nothing
    about the loop. */
module Supervisor {
  import opened Names
  import opened Aliases
  import opened Backoff
  import opened Readiness
  import P = Protocol

  // ----- what a log may look like -----

  datatype Event =
    | Spawned | SpawnFailed | RaisedHealthy | LoweredHealthy | MarkedReady
    | Received        // the one exit value of the child of this attempt
    | SignalFailed    // it could not be signalled; its exit value is never received
    | TornDown
    | LeftRunning     // `run` returns and nothing was torn down
    | Slept(pause: int)

  datatype StaticChild = NoChild | Alive | Reaped | Lost

  datatype Sup = Sup(child: StaticChild, run: P.RunPc)

  /** One child at a time, reaped before the next; one receive per child; `healthy` is
      false before a teardown; a restart only after a pause. */
  function Replay1(st: Sup, e: Event): Option<Sup> {
    match e
    case Spawned => if st.run.Starting? && (st.child.NoChild? || st.child.Reaped?) then Some(st.(child := Alive)) else None
    case SpawnFailed => if st.run.Starting? && (st.child.NoChild? || st.child.Reaped?) then Some(st) else None
    case RaisedHealthy => if st.run.Starting? then Some(st.(run := P.Up)) else None
    case LoweredHealthy => if st.run.Up? then Some(st.(run := P.Down)) else None
    case MarkedReady => if st.run.Up? then Some(st) else None
    case Received => if st.child.Alive? then Some(st.(child := Reaped)) else None
    case SignalFailed => if st.child.Alive? then Some(st.(child := Lost)) else None
    case TornDown => if st.run.Down? then Some(st.(run := P.Torn)) else None
    case LeftRunning => if st.run.Starting? || st.run.Down? then Some(st.(run := P.Left)) else None
    case Slept(_) => if st.run.Down? && st.child.Reaped? then Some(st.(run := P.Starting)) else None
  }

  const START := Sup(NoChild, P.Starting)

  function Replay(log: seq<Event>): Option<Sup> {
    if log == [] then Some(START)
    else match Replay(log[..|log| - 1])
      case None => None
      case Some(st) => Replay1(st, log[|log| - 1])
  }

  function Spawns(log: seq<Event>): nat {
    if log == [] then 0 else Spawns(log[..|log| - 1]) + if log[|log| - 1].Spawned? then 1 else 0
  }

  function Receives(log: seq<Event>): nat {
    if log == [] then 0 else Receives(log[..|log| - 1]) + if log[|log| - 1].Received? then 1 else 0
  }

  function Marks(log: seq<Event>): nat {
    if log == [] then 0 else Marks(log[..|log| - 1]) + if log[|log| - 1].MarkedReady? then 1 else 0
  }

  function Pauses(log: seq<Event>): seq<int> {
    if log == [] then []
    else Pauses(log[..|log| - 1]) + if log[|log| - 1].Slept? then [log[|log| - 1].pause] else []
  }

  // ----- what the world does -----

  /** The first place where a check of the context finds it cancelled. */
  datatype Cancel = InStartup | WhileUp | Later | InBackoff | Never

  /** How the child ends in `waitProcess`. */
  datatype Ending =
    | Exits(error: ExitError)                                    // before the context is done
    | IsStopped(signalSent: bool, inTime: bool, killSent: bool)  // after the context is done

  datatype Attempt = Attempt(spawns: bool, turns: seq<Turn>, cancel: Cancel, ending: Ending)

  /** The context is cancelled no later than the check at line 202. */
  predicate Stopping(a: Attempt) {
    a.cancel.InStartup? || a.cancel.WhileUp?
  }

  /** The child is only stopped when the context is done. */
  predicate Possible(a: Attempt) {
    a.ending.IsStopped? ==> Stopping(a)
  }

  datatype Policy = Policy(min: int, max: int, retries: int)

  datatype Leaving =
    | Running                // the script ended first
    | SpawnError             // line 169
    | StoppedInStartup       // line 192
    | CleanExit              // line 211
    | StoppedWhileUp         // line 208, seen at line 202 already
    | StoppedLate            // line 208, not seen at lines 178 and 202
    | Exhausted              // line 215
    | StoppedInBackoff       // line 218

  /** Exactly these exits run `stopDynamicBackends`. */
  predicate TearsDown(l: Leaving) {
    l.StoppedInStartup? || l.CleanExit? || l.StoppedWhileUp? || l.Exhausted?
  }

  // ----- which exit is taken, from the inputs -----

  const SIGNAL_FAILED := "signal"
  const NOT_READY := "not ready"

  /** `waitProcess` sees the child's end, unless a signal it needs cannot be sent. */
  predicate IsReaped(e: Ending) {
    e.Exits? || (e.signalSent && (e.inTime || e.killSent))
  }

  /** A child that was stopped on request and reaped counts as a clean end. */
  function EndError(e: Ending): ExitError {
    if e.Exits? then e.error else if IsReaped(e) then None else Some(SIGNAL_FAILED)
  }

  /** What line 210 looks at. */
  function AttemptError(backends: Index, a: Attempt): ExitError {
    match Wait(backends, a.turns)
    case Up => EndError(a.ending)
    case Gone(error) => Some(error)
    case Late => Some(NOT_READY)
  }

  /** How one attempt leaves `run`; None when it goes round again. */
  function ExitOf(backends: Index, policy: Policy, attempt: nat, a: Attempt): Option<Leaving> {
    var ready := Wait(backends, a.turns).Up?;
    if !a.spawns then Some(SpawnError)
    else if !ready && a.cancel.InStartup? then Some(StoppedInStartup)
    else ExitAfter(policy, attempt, a, ready, AttemptError(backends, a))
  }

  /** Lines 207-219, for an attempt that was ready or not and ended with `error`. */
  function ExitAfter(policy: Policy, attempt: nat, a: Attempt, ready: bool, error: ExitError): Option<Leaving> {
    if ready && Stopping(a) then Some(StoppedWhileUp)
    else if Stopping(a) || a.cancel.Later? then Some(if error.None? then StoppedWhileUp else StoppedLate)
    else if error.None? then Some(CleanExit)
    else if policy.retries >= 0 && attempt >= policy.retries then Some(Exhausted)
    else if a.cancel.InBackoff? then Some(StoppedInBackoff)
    else None
  }

  lemma ExitFacts(backends: Index, policy: Policy, attempt: nat, a: Attempt)
    ensures var exit, allowed := ExitOf(backends, policy, attempt, a), policy.retries < 0 || attempt < policy.retries;
            && (exit.None? <==> Fails(backends, a) && allowed && a.cancel.Never?)
            && (exit == Some(Exhausted) <==> Fails(backends, a) && !allowed)
            && exit != Some(Running)
    ensures Fails(backends, a) ==> a.spawns
  {
    hide Wait, EndError;
  }

  /** The first attempt that leaves decides. */
  function Decider(backends: Index, policy: Policy, script: seq<Attempt>, from: nat): (i: nat)
    requires from <= |script|
    ensures from <= i <= |script|
    ensures forall k :: from <= k < i ==> ExitOf(backends, policy, k, script[k]).None?
    ensures i < |script| ==> ExitOf(backends, policy, i, script[i]).Some?
    decreases |script| - from
  {
    if from == |script| || ExitOf(backends, policy, from, script[from]).Some? then from
    else Decider(backends, policy, script, from + 1)
  }

  /** How many of the first `n` children became ready. */
  function ReadyCount(backends: Index, script: seq<Attempt>, n: nat): nat
    requires n <= |script|
  {
    if n == 0 then 0
    else ReadyCount(backends, script, n - 1) + if script[n - 1].spawns && Wait(backends, script[n - 1].turns).Up? then 1 else 0
  }

  function LeavingOf(backends: Index, policy: Policy, script: seq<Attempt>): Leaving {
    var i := Decider(backends, policy, script, 0);
    if i < |script| then ExitOf(backends, policy, i, script[i]).value else Running
  }

  // ----- when the dynamic backends are torn down -----

  /** The context is not found cancelled by any check up to line 207. */
  predicate Uncancelled(a: Attempt) {
    a.cancel.InBackoff? || a.cancel.Never?
  }

  predicate Fails(backends: Index, a: Attempt) {
    a.spawns && Uncancelled(a) && AttemptError(backends, a).Some?
  }

  /** The child ends as it should: exit status zero, or stopped on request by a signal that
      could be sent, the second one too if it was needed. */
  predicate EndsWell(e: Ending) {
    match e
    case Exits(error) => error == None
    case IsStopped(signalSent, inTime, killSent) => signalSent && (inTime || killSent)
  }

  /** Started, never stopped, and not both ready and ended well. */
  predicate Crashes(backends: Index, a: Attempt) {
    a.spawns && (a.cancel.InBackoff? || a.cancel.Never?) && !(Wait(backends, a.turns).Up? && EndsWell(a.ending))
  }

  lemma CrashIsFailure(backends: Index, a: Attempt)
    ensures Crashes(backends, a) <==> Fails(backends, a)
    ensures AttemptError(backends, a).None? <==> Wait(backends, a.turns).Up? && EndsWell(a.ending)
  {
    hide Wait;
  }

  /** Stopped before it was ready; or ready, and stopped or ended well; or the last of the
      crashes the policy allows. */
  predicate TearsDownAt(backends: Index, policy: Policy, attempt: nat, a: Attempt) {
    && a.spawns
    && (|| a.cancel.InStartup?
        || (Wait(backends, a.turns).Up? && (a.cancel.WhileUp? || EndsWell(a.ending)))
        || (Crashes(backends, a) && 0 <= policy.retries <= attempt))
  }

  lemma AttemptTearsDownIff(backends: Index, policy: Policy, attempt: nat, a: Attempt)
    ensures ExitOf(backends, policy, attempt, a).Some? && TearsDown(ExitOf(backends, policy, attempt, a).value)
            <==> TearsDownAt(backends, policy, attempt, a)
  {
    CrashIsFailure(backends, a);
    hide Wait, EndError, EndsWell, AttemptError, Crashes;
  }

  /** A child that became ready, in a run nobody stops, and then ends by itself: status zero
      ends the run cleanly, anything else starts another child after a pause, unless the
      retries are used up or the pause is interrupted. */
  lemma ReadyChildEnds(backends: Index, policy: Policy, attempt: nat, a: Attempt, status: Option<string>)
    requires a.spawns && (a.cancel.InBackoff? || a.cancel.Never?)
    requires Wait(backends, a.turns) == Up && a.ending == Exits(status)
    ensures ExitOf(backends, policy, attempt, a) == Some(CleanExit) <==> status == None
    ensures status != None && 0 <= policy.retries <= attempt ==> ExitOf(backends, policy, attempt, a) == Some(Exhausted)
    ensures status != None && (policy.retries < 0 || attempt < policy.retries) ==>
              ExitOf(backends, policy, attempt, a) == if a.cancel.InBackoff? then Some(StoppedInBackoff) else None
  {
    hide Wait;
  }

  /** The same for one that never became ready, whatever its status. */
  lemma UnreadyChildEnds(backends: Index, policy: Policy, attempt: nat, a: Attempt)
    requires a.spawns && (a.cancel.InBackoff? || a.cancel.Never?) && Wait(backends, a.turns) != Up
    ensures 0 <= policy.retries <= attempt ==> ExitOf(backends, policy, attempt, a) == Some(Exhausted)
    ensures policy.retries < 0 || attempt < policy.retries ==>
              ExitOf(backends, policy, attempt, a) == if a.cancel.InBackoff? then Some(StoppedInBackoff) else None
  {
    hide Wait;
  }

  /** Three children of one script: two crash after they were ready, the third ends well;
      the run pauses twice and ends cleanly. */
  lemma RestartsThenEnds(policy: Policy)
    requires policy.retries < 0 || policy.retries >= 2
    ensures var ready := [Turn({}, None, Tick), Turn({"x"}, None, Tick)];
            var crash := Attempt(true, ready, Never, Exits(Some("exit status 1")));
            var script := [crash, crash, crash.(ending := Exits(None))];
            LeavingOf(map["a" := "x"], policy, script) == CleanExit && Decider(map["a" := "x"], policy, script, 0) == 2
  {
    var backends := map["a" := "x"];
    var ready := [Turn({}, None, Tick), Turn({"x"}, None, Tick)];
    var crash := Attempt(true, ready, Never, Exits(Some("exit status 1")));
    var script := [crash, crash, crash.(ending := Exits(None))];
    ReadyAtTheSecondTurn();
    hide Wait, EndError, AttemptError;
    ReadyChildEnds(backends, policy, 0, script[0], Some("exit status 1"));
    ReadyChildEnds(backends, policy, 1, script[1], Some("exit status 1"));
    ReadyChildEnds(backends, policy, 2, script[2], None);
    hide ExitOf;
    LeavesAt(backends, policy, script, 2);
    assert Decider(backends, policy, script, 0) == 2;
  }

  lemma ReadyAtTheSecondTurn()
    ensures Wait(map["a" := "x"], [Turn({}, None, Tick), Turn({"x"}, None, Tick)]) == Up
  {
    var backends, turns := map["a" := "x"], [Turn({}, None, Tick), Turn({"x"}, None, Tick)];
    assert backends["a"] !in turns[0].answering;
    assert FullPass(backends, turns[1..][0]);
    assert Wait(backends, turns[1..]) == Up;
  }

  /** Which scripts end in a teardown, and which do not. */
  lemma RunTearsDownIff(backends: Index, policy: Policy, script: seq<Attempt>)
    ensures TearsDown(LeavingOf(backends, policy, script)) <==>
              var i := Decider(backends, policy, script, 0);
              i < |script| && TearsDownAt(backends, policy, i, script[i])
  {
    var i := Decider(backends, policy, script, 0);
    if i < |script| {
      AttemptTearsDownIff(backends, policy, i, script[i]);
    }
  }

  /** The retries are exhausted exactly when that many attempts and one more fail, none of
      them stopped and no pause between them interrupted. */
  lemma ExhaustedIff(backends: Index, policy: Policy, script: seq<Attempt>)
    ensures LeavingOf(backends, policy, script).Exhausted? <==>
              && 0 <= policy.retries < |script|
              && (forall k :: 0 <= k <= policy.retries ==> Crashes(backends, script[k]))
              && (forall k :: 0 <= k < policy.retries ==> script[k].cancel.Never?)
  {
    var i := Decider(backends, policy, script, 0);
    if policy.retries >= 0 {
      forall k | 0 <= k < |script|
        ensures ExitOf(backends, policy, k, script[k]).None? <==>
                  Crashes(backends, script[k]) && k < policy.retries && script[k].cancel.Never?
        ensures ExitOf(backends, policy, k, script[k]) == Some(Exhausted) <==> Crashes(backends, script[k]) && k >= policy.retries
      {
        ExitFacts(backends, policy, k, script[k]);
        CrashIsFailure(backends, script[k]);
      }
      hide Fails, Crashes, ExitOf;
      assert i > 0 ==> ExitOf(backends, policy, i - 1, script[i - 1]).None?;
    } else if i < |script| {
      ExitFacts(backends, policy, i, script[i]);
    }
  }

  /** Three ways out that leave the dynamic backends running: a restart that cannot be
      started, a cancellation seen late, and one during the pause. */
  lemma RunsThatSkipTheTeardown(policy: Policy, backends: Index)
    requires policy.retries != 0
    ensures var crash := Attempt(true, [], Never, Exits(Some("crash")));
            && LeavingOf(backends, policy, [crash, crash.(spawns := false)]) == SpawnError
            && LeavingOf(backends, policy, [crash.(cancel := Later)]) == StoppedLate
            && LeavingOf(backends, policy, [crash.(cancel := InBackoff)]) == StoppedInBackoff
  {
    var crash := Attempt(true, [], Never, Exits(Some("crash")));
    assert AttemptError(backends, crash) == Some(NOT_READY);
    LeavesAt(backends, policy, [crash, crash.(spawns := false)], 1);
    LeavesAt(backends, policy, [crash.(cancel := Later)], 0);
    LeavesAt(backends, policy, [crash.(cancel := InBackoff)], 0);
  }

  lemma LeavesAt(backends: Index, policy: Policy, script: seq<Attempt>, i: nat)
    requires i < |script| && ExitOf(backends, policy, i, script[i]).Some?
    requires forall k :: 0 <= k < i ==> ExitOf(backends, policy, k, script[k]).None?
    ensures LeavingOf(backends, policy, script) == ExitOf(backends, policy, i, script[i]).value
  {
    hide ExitOf;
  }

  class StaticSupervisor {
    var log: seq<Event>
    ghost var now: Sup          // where the log leads
    ghost var spawns: nat
    ghost var receives: nat
    ghost var marks: nat
    ghost var pauses: seq<int>

    ghost predicate Valid()
      reads this
    {
      && Replay(log) == Some(now) && spawns == Spawns(log) && receives == Receives(log)
      && marks == Marks(log) && pauses == Pauses(log)
    }

    constructor ()
      ensures Valid() && log == [] && now == START
    {
      log, now, spawns, receives, marks, pauses := [], START, 0, 0, 0, [];
    }

    method Note(e: Event)
      requires Valid() && Replay1(now, e).Some?
      modifies this
      ensures Valid() && log == old(log) + [e] && Some(now) == Replay1(old(now), e)
      ensures spawns == old(spawns) + if e.Spawned? then 1 else 0
      ensures receives == old(receives) + if e.Received? then 1 else 0
      ensures marks == old(marks) + if e.MarkedReady? then 1 else 0
      ensures pauses == old(pauses) + if e.Slept? then [e.pause] else []
    {
      log := log + [e];
      assert log[..|log| - 1] == old(log);
      now, spawns, receives := Replay(log).value, Spawns(log), Receives(log);
      marks, pauses := Marks(log), Pauses(log);
    }

    method Receive(cell: ExitCell)
      requires Valid() && !cell.taken && now.child.Alive?
      modifies this, cell
      ensures Valid() && cell.taken && now == old(now).(child := Reaped)
      ensures spawns == old(spawns) && receives == old(receives) + 1 && marks == old(marks) && pauses == old(pauses)
    {
      hide Valid;
      cell.Receive();
      Note(Received);
    }

    /** `waitProcess`: nil unless the child exits on its own or cannot be signalled. The
        exit value is received exactly once, or the signal failed. */
    method WaitProcess(cell: ExitCell, ending: Ending) returns (error: ExitError)
      requires Valid() && !cell.taken && now.child.Alive?
      modifies this, cell
      ensures Valid() && now == Sup(if cell.taken then Reaped else Lost, old(now).run)
      ensures cell.taken <==> IsReaped(ending)
      ensures error == EndError(ending)
      ensures ending.Exits? ==> cell.taken && error == ending.error
      ensures ending.IsStopped? ==> (cell.taken <==> error.None?)
      ensures ending.IsStopped? ==> (error.None? <==> ending.signalSent && (ending.inTime || ending.killSent))
      ensures spawns == old(spawns) && marks == old(marks) && pauses == old(pauses)
      ensures receives == old(receives) + if cell.taken then 1 else 0
    {
      hide Valid;
      match ending {
        case Exits(e) =>
          Receive(cell);
          return e;
        case IsStopped(signalSent, inTime, killSent) =>
          if !signalSent || (!inTime && !killSent) {
            Note(SignalFailed);
            return Some(SIGNAL_FAILED);
          }
          Receive(cell);
          return None;
      }
    }

    /** Lines 132-138: no static backends, only the protocol for dynamic ones. */
    method RunDynamicOnly()
      requires Valid() && log == [] && now == START
      modifies this
      ensures Valid() && now == Sup(NoChild, P.Torn) && spawns == old(spawns) && marks == old(marks) + 1
    {
      hide Valid;
      Note(RaisedHealthy);
      Note(MarkedReady);
      Note(LoweredHealthy);
      Note(TornDown);
    }

    /** Lines 176-197: the child never became ready. Returns true when `run` ends here. */
    method GiveUp(cell: ExitCell, gone: bool, attempt: Attempt) returns (ended: bool)
      requires Valid() && now == Sup(if gone then Reaped else Alive, P.Up) && cell.taken == gone
      modifies this, cell
      ensures Valid() && ended == attempt.cancel.InStartup?
      ensures now.run == if ended then P.Torn else P.Down
      ensures now.child == if cell.taken then Reaped else Lost
      ensures cell.taken <==> !ended || gone || IsReaped(attempt.ending)
      ensures receives == old(receives) + if cell.taken && !gone then 1 else 0
      ensures spawns == old(spawns) && marks == old(marks) && pauses == old(pauses)
    {
      hide Valid;
      Note(LoweredHealthy);
      ended := attempt.cancel.InStartup?;
      if ended {
        if !gone {
          var ignored := WaitProcess(cell, attempt.ending);
        }
        Note(TornDown);
      } else if !gone {
        Receive(cell);
      }
    }

    /** Lines 199-204: the child became ready and is watched until it ends. */
    method Watch(cell: ExitCell, attempt: Attempt) returns (error: ExitError)
      requires Valid() && now == Sup(Alive, P.Up) && !cell.taken
      modifies this, cell
      ensures Valid() && now.child == if cell.taken then Reaped else Lost
      ensures now.run == if attempt.cancel.InStartup? || attempt.cancel.WhileUp? || error.None? then P.Torn else P.Down
      ensures (cell.taken <==> IsReaped(attempt.ending)) && error == EndError(attempt.ending)
      ensures receives == old(receives) + if cell.taken then 1 else 0
      ensures spawns == old(spawns) && marks == old(marks) + 1 && pauses == old(pauses)
    {
      hide Valid;
      Note(MarkedReady);
      error := WaitProcess(cell, attempt.ending);
      Note(LoweredHealthy);
      if attempt.cancel.InStartup? || attempt.cancel.WhileUp? || error.None? {
        Note(TornDown);
      }
    }

    /** One attempt after its child was started. `error` is what line 210 looks at. */
    method Serve(cell: ExitCell, backends: Index, attempt: Attempt) returns (ended: bool, ready: bool, error: ExitError)
      requires Valid() && now == Sup(Alive, P.Starting) && !cell.taken && Possible(attempt)
      modifies this, cell
      ensures Valid() && now.child == if cell.taken then Reaped else Lost
      ensures ended <==> attempt.cancel.InStartup? && !Wait(backends, attempt.turns).Up?
      ensures ready == Wait(backends, attempt.turns).Up? && error == AttemptError(backends, attempt)
      ensures now.run == if ended || ((Stopping(attempt) || error.None?) && Wait(backends, attempt.turns).Up?) then P.Torn else P.Down
      ensures !cell.taken ==> Stopping(attempt) && now.run.Torn? && !IsReaped(attempt.ending)
      ensures receives == old(receives) + if cell.taken then 1 else 0
      ensures spawns == old(spawns) && pauses == old(pauses)
      ensures marks == old(marks) + if ready then 1 else 0
    {
      hide Valid;
      Note(RaisedHealthy);
      var verdict := WaitBackendListeners(cell, backends, attempt.turns);
      if verdict.Up? {
        error := Watch(cell, attempt);
        return false, true, error;
      }
      if verdict.Gone? {
        Note(Received);
      }
      ready := false;
      ended := GiveUp(cell, verdict.Gone?, attempt);
      error := Some(if verdict.Gone? then verdict.error else NOT_READY);
    }

    /** Lines 207-219: leave, or pause and go round again. */
    method Settle(policy: Policy, attempt: nat, backoff: int, try: Attempt, ready: bool, error: ExitError)
      returns (leaving: Option<Leaving>, failed: bool)
      requires Valid() && (ready || error.Some?) && (now.child.Reaped? || (now.child.Lost? && now.run.Torn?))
      requires now.run == if ready && (Stopping(try) || error.None?) then P.Torn else P.Down
      modifies this
      ensures Valid() && leaving == ExitAfter(policy, attempt, try, ready, error) && now.child == old(now).child
      ensures failed <==> Uncancelled(try) && error.Some?
      ensures now.run == if leaving.None? then P.Starting else if TearsDown(leaving.value) then P.Torn else P.Left
      ensures pauses == old(pauses) + if leaving.None? then [backoff] else []
      ensures spawns == old(spawns) && receives == old(receives) && marks == old(marks)
    {
      hide Valid;
      if Stopping(try) || try.cancel.Later? {
        if ready && (Stopping(try) || error.None?) {
          return Some(StoppedWhileUp), false;
        }
        Note(LeftRunning);
        return Some(StoppedLate), false;
      }
      if error.None? {
        return Some(CleanExit), false;
      }
      failed := true;
      if policy.retries >= 0 && attempt >= policy.retries {
        Note(TornDown);
        return Some(Exhausted), failed;
      }
      if try.cancel.InBackoff? {
        Note(LeftRunning);
        return Some(StoppedInBackoff), failed;
      }
      Note(Slept(backoff));
      return None, failed;
    }

    /** One turn of the restart loop; None when it goes round again. */
    method TryOnce(backends: Index, policy: Policy, attempt: nat, backoff: int, try: Attempt)
      returns (leaving: Option<Leaving>, failed: bool)
      requires Valid() && now.run.Starting? && (now.child.NoChild? || now.child.Reaped?) && Possible(try)
      modifies this
      ensures Valid() && leaving == ExitOf(backends, policy, attempt, try)
      ensures failed <==> Fails(backends, try)
      ensures now.run == if leaving.None? then P.Starting else if TearsDown(leaving.value) then P.Torn else P.Left
      ensures leaving.None? ==> now.child.Reaped?
      ensures pauses == old(pauses) + if leaving.None? then [backoff] else []
      ensures spawns == old(spawns) + if try.spawns then 1 else 0
      ensures marks == old(marks) + if try.spawns && Wait(backends, try.turns).Up? then 1 else 0
      ensures receives == old(receives) + if try.spawns && !now.child.Lost? then 1 else 0
      ensures now.child.Lost? ==> Stopping(try) && !IsReaped(try.ending)
                                  && (leaving == Some(StoppedInStartup) || leaving == Some(StoppedWhileUp))
    {
      hide Valid;
      if !try.spawns {
        Note(SpawnFailed);
        Note(LeftRunning);
        return Some(SpawnError), false;
      }
      Note(Spawned);
      var cell := new ExitCell();
      var ended, ready, error := Serve(cell, backends, try);
      if ended {
        return Some(StoppedInStartup), false;
      }
      assert ready || error.Some?;
      hide Wait, IsReaped, EndError, AttemptError;
      leaving, failed := Settle(policy, attempt, backoff, try, ready, error);
    }

    /** The restart loop. `failures` counts the attempts that ended with an error. */
    method Run(backends: Index, policy: Policy, script: seq<Attempt>) returns (leaving: Leaving, failures: nat)
      requires Valid() && now == START && spawns == receives == marks == 0 && pauses == []
      requires forall i :: 0 <= i < |script| ==> Possible(script[i])
      modifies this
      ensures Valid() && leaving == LeavingOf(backends, policy, script)
      ensures now.run == if leaving.Running? then P.Starting else if TearsDown(leaving) then P.Torn else P.Left
      ensures var i := Decider(backends, policy, script, 0);
              && |pauses| == i
              && spawns == i + (if i < |script| && script[i].spawns then 1 else 0)
              && failures == i + (if i < |script| && Fails(backends, script[i]) then 1 else 0)
      ensures var i := Decider(backends, policy, script, 0);
              marks == ReadyCount(backends, script, if i < |script| then i + 1 else i)
      ensures leaving.Exhausted? ==> failures == policy.retries + 1 == spawns
      ensures policy.retries >= 0 ==> spawns <= policy.retries + 1
      ensures forall k :: 0 <= k < |pauses| ==> pauses[k] == Pause(policy.min, policy.max, k)
      ensures receives == spawns || (receives + 1 == spawns && now.child.Lost?)
      ensures now.child.Lost? ==> leaving.StoppedInStartup? || leaving.StoppedWhileUp?
    {
      hide Valid, Possible, Next, Pause, Replay, Spawns, Receives, Pauses, Fails, TearsDown, ExitOf;
      PauseSteps(policy.min, policy.max, 0);
      var attempt := 0;
      var backoff := policy.min;
      failures := 0;
      while attempt < |script|
        invariant 0 <= attempt <= |script|
        invariant Valid() && now == Sup(if attempt == 0 then NoChild else Reaped, P.Starting)
        invariant failures == attempt == spawns == receives == |pauses|
        invariant marks == ReadyCount(backends, script, attempt)
        invariant policy.retries < 0 || attempt <= policy.retries
        invariant Decider(backends, policy, script, attempt) == Decider(backends, policy, script, 0)
        invariant backoff == Pause(policy.min, policy.max, attempt)
        invariant forall k :: 0 <= k < attempt ==> pauses[k] == Pause(policy.min, policy.max, k)
      {
        ExitFacts(backends, policy, attempt, script[attempt]);
        var left, failed := TryOnce(backends, policy, attempt, backoff, script[attempt]);
        if failed {
          failures := failures + 1;
        }
        if left.Some? {
          return left.value, failures;
        }
        PauseSteps(policy.min, policy.max, attempt);
        backoff := Next(backoff, policy.max);
        attempt := attempt + 1;
      }
      return Running, failures;
    }
  }

  lemma PauseSteps(min: int, max: int, k: nat)
    ensures Pause(min, max, 0) == min && Pause(min, max, k + 1) == Next(Pause(min, max, k), max)
  {
  }
}
