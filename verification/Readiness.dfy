/** The two readiness waiters (go/subprocess.go, lines 251-355) and the one-shot delivery
    of a child's exit. Timers and sockets are a script of what each turn sees. */
module Readiness {
  import opened Names
  import opened Aliases

  /** How a child ended: None is exit status zero. */
  type ExitError = Option<string>

  const EXITED_EARLY := "subprocess exited before backend listener became ready"

  datatype Wake = ExitSeen(error: ExitError) | Deadline | Tick

  /** One turn of the loop: the addresses that answer a dial, what the look at the child
      right after a full pass shows, and otherwise what the select wakes up for. */
  datatype Turn = Turn(answering: set<string>, exited: Option<ExitError>, wake: Wake)

  datatype Verdict = Up | Gone(error: string) | Late

  function NotNil(error: ExitError): string {
    if error.Some? then error.value else EXITED_EARLY
  }

  predicate FullPass(backends: Index, turn: Turn) {
    forall n :: n in backends ==> backends[n] in turn.answering
  }

  predicate Idle(backends: Index, turn: Turn) {
    !FullPass(backends, turn) && turn.wake.Tick?
  }

  /** The abstract wait machine both waiters follow. The deadline always comes: every
      context the loop waits on has one. */
  function Wait(backends: Index, turns: seq<Turn>): Verdict {
    if turns == [] then Late
    else if FullPass(backends, turns[0]) then
      if turns[0].exited.Some? then Gone(NotNil(turns[0].exited.value)) else Up
    else match turns[0].wake
      case ExitSeen(error) => Gone(NotNil(error))
      case Deadline => Late
      case Tick => Wait(backends, turns[1..])
  }

  /** The buffered channel that carries the exit of the static child: one value, once. */
  class ExitCell {
    var taken: bool

    constructor ()
      ensures !taken
    {
      taken := false;
    }

    method Receive()
      requires !taken
      modifies this
      ensures taken
    {
      taken := true;
    }
  }

  method AllBackendsDialable(backends: Index, answering: set<string>) returns (all: bool)
    ensures all <==> forall n :: n in backends ==> backends[n] in answering
  {
    var names := backends.Keys;
    while names != {}
      invariant names <= backends.Keys
      invariant forall n :: n in backends && n !in names ==> backends[n] in answering
      decreases names
    {
      var n :| n in names;
      if backends[n] !in answering {
        return false;
      }
      names := names - {n};
    }
    return true;
  }

  /** `waitBackendListeners`: an exit is received from the one-shot channel. */
  method WaitBackendListeners(cell: ExitCell, backends: Index, turns: seq<Turn>) returns (verdict: Verdict)
    requires !cell.taken
    modifies cell
    ensures verdict == Wait(backends, turns)
    ensures cell.taken <==> verdict.Gone?
  {
    var i := 0;
    while i < |turns|
      invariant 0 <= i <= |turns|
      invariant Wait(backends, turns) == Wait(backends, turns[i..])
      invariant !cell.taken
    {
      var turn := turns[i];
      assert turns[i..][0] == turn && turns[i..][1..] == turns[i + 1..];
      var all := AllBackendsDialable(backends, turn.answering);
      if all {
        if turn.exited.Some? {
          cell.Receive();
          return Gone(NotNil(turn.exited.value));
        }
        return Up;
      }
      match turn.wake {
        case ExitSeen(error) =>
          cell.Receive();
          return Gone(NotNil(error));
        case Deadline => return Late;
        case Tick =>
      }
      i := i + 1;
    }
    return Late;
  }

  /** `waitBackendListenersProcess`: the exit of a dynamic child is a closed channel that
      any number of waiters may look at. */
  method WaitBackendListenersProcess(key: string, addr: string, turns: seq<Turn>) returns (verdict: Verdict)
    ensures verdict == Wait(map[key := addr], turns)
  {
    var backends := map[key := addr];
    var i := 0;
    while i < |turns|
      invariant 0 <= i <= |turns|
      invariant Wait(backends, turns) == Wait(backends, turns[i..])
    {
      var turn := turns[i];
      assert turns[i..][0] == turn && turns[i..][1..] == turns[i + 1..];
      var all := AllBackendsDialable(backends, turn.answering);
      if all {
        if turn.exited.Some? {
          return Gone(NotNil(turn.exited.value));
        }
        return Up;
      }
      match turn.wake {
        case ExitSeen(error) => return Gone(NotNil(error));
        case Deadline => return Late;
        case Tick =>
      }
      i := i + 1;
    }
    return Late;
  }

  /** The turn that decided: everything before it was idle. */
  ghost predicate Decides(backends: Index, turns: seq<Turn>, i: nat) {
    i < |turns| && !Idle(backends, turns[i]) && forall j :: 0 <= j < i ==> Idle(backends, turns[j])
  }

  /** "Ready" means a pass in which every address answered, followed by a look at the
      child that did not find it exited; no earlier turn saw an exit or the deadline. */
  lemma {:induction false} ReadyMeansPassThenAlive(backends: Index, turns: seq<Turn>)
    ensures Wait(backends, turns) == Up <==>
      exists i: nat :: Decides(backends, turns, i) && FullPass(backends, turns[i]) && turns[i].exited.None?
  {
    if turns != [] {
      ReadyMeansPassThenAlive(backends, turns[1..]);
      if Idle(backends, turns[0]) {
        if Wait(backends, turns) == Up {
          var i: nat :| Decides(backends, turns[1..], i) && FullPass(backends, turns[1..][i]) && turns[1..][i].exited.None?;
          assert Decides(backends, turns, i + 1);
        }
        if i: nat :| Decides(backends, turns, i) && FullPass(backends, turns[i]) && turns[i].exited.None? {
          assert i > 0;
          assert Decides(backends, turns[1..], i - 1);
        }
      } else if Wait(backends, turns) == Up {
        assert Decides(backends, turns, 0);
      }
    }
  }

  /** Too late is neither: the deadline came at the deciding turn, or nothing ever decided. */
  lemma LateIff(backends: Index, turns: seq<Turn>)
    ensures Wait(backends, turns) == Late <==>
      || (forall i :: 0 <= i < |turns| ==> Idle(backends, turns[i]))
      || exists i: nat :: Decides(backends, turns, i) && !FullPass(backends, turns[i]) && turns[i].wake.Deadline?
  {
    if turns != [] {
      LateIff(backends, turns[1..]);
      if Idle(backends, turns[0]) {
        assert turns == [turns[0]] + turns[1..];
        if i: nat :| Decides(backends, turns[1..], i) && !FullPass(backends, turns[1..][i]) && turns[1..][i].wake.Deadline? {
          assert Decides(backends, turns, i + 1);
        }
        if i: nat :| Decides(backends, turns, i) && !FullPass(backends, turns[i]) && turns[i].wake.Deadline? {
          assert i > 0 && Decides(backends, turns[1..], i - 1);
        }
      } else {
        assert Decides(backends, turns, 0);
      }
    }
  }

  /** An exit that is visible at the deciding turn always wins over readiness, and the
      error is never nil even when the child exited with status zero. */
  lemma {:induction false} ExitWins(backends: Index, turns: seq<Turn>, i: nat)
    requires Decides(backends, turns, i)
    requires if FullPass(backends, turns[i]) then turns[i].exited.Some? else turns[i].wake.ExitSeen?
    ensures Wait(backends, turns) ==
      Gone(NotNil(if FullPass(backends, turns[i]) then turns[i].exited.value else turns[i].wake.error))
    ensures var status := if FullPass(backends, turns[i]) then turns[i].exited.value else turns[i].wake.error;
            Wait(backends, turns) == Gone(
              if status == None then "subprocess exited before backend listener became ready" else status.value)
  {
    if i > 0 {
      assert Idle(backends, turns[0]);
      assert Decides(backends, turns[1..], i - 1);
      ExitWins(backends, turns[1..], i - 1);
    }
  }
}
