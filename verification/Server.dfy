/** `Server` as the object it is. Its regions under the mutex update fields in place and are
    proved against the steps of ServerLifecycle.dfy; the ghost fields hold what Go keeps in
    the channels themselves and in the callers' stacks. */
module Server {
  import opened Names
  import opened Aliases
  import L = ServerLifecycle

  datatype DialError = NotStarted | NotReady | NotFound

  class Server {
    var started: bool
    var ready: bool
    var hasChannel: bool      // readyCh != nil
    var readyClosed: bool
    var readyErr: L.Error
    var runErr: Option<L.Error>
    ghost var gens: seq<L.Gen>
    ghost var waiters: map<nat, L.Waiter>
    ghost var stoppers: map<nat, L.Stopper>

    ghost function View(): L.State
      reads this
    {
      L.State(started, ready, gens, readyClosed, readyErr, runErr, waiters, stoppers)
    }

    ghost predicate Valid()
      reads this
    {
      L.Inv(View()) && (hasChannel <==> gens != [])
    }

    constructor ()
      ensures Valid() && View() == L.Init()
    {
      started, ready, hasChannel, readyClosed, readyErr, runErr := false, false, false, false, None, None;
      gens, waiters, stoppers := [], map[], map[];
    }

    /** The opening region of `Start`. */
    method BeginStart() returns (ok: bool)
      requires Valid()
      modifies this
      ensures Valid() && ok == !old(started)
      ensures ok ==> L.Enabled(false, old(View()), L.Begin) && View() == L.Apply(old(View()), L.Begin)
      ensures !ok ==> View() == old(View())
    {
      if started {
        return false;
      }
      L.FieldsStep(View(), L.Begin);
      L.GensStep(View(), L.Begin);
      L.CallersStep(View(), L.Begin);
      started, ready, runErr := true, false, None;
      hasChannel, readyClosed, readyErr := true, false, None;
      gens := gens + [L.Gen(L.Active, None, None, false, false, 0, 0)];
      return true;
    }

    /** `markReady`, called by the runner and again by the tail of `Start`. */
    method MarkReady(err: L.Error)
      requires hasChannel <==> gens != []
      modifies this
      ensures View() == L.MarkReady(old(View()), err)
      ensures hasChannel == old(hasChannel)
    {
      if !hasChannel || readyClosed {
        return;
      }
      readyErr := err;
      if err.None? {
        ready := true;
      }
      ghost var last := |gens| - 1;
      gens := gens[last := gens[last].(verdict := Some(err), readyCloses := gens[last].readyCloses + 1)];
      readyClosed := true;
    }

    /** The opening region of `Stop`: one generation's cancel and done, or not started. */
    method BeginStop(ghost p: nat) returns (ok: bool)
      requires Valid() && p !in stoppers
      modifies this
      ensures Valid() && ok == old(started)
      ensures ok ==> L.Enabled(false, old(View()), L.StopBegin(p)) && View() == L.Apply(old(View()), L.StopBegin(p))
      ensures !ok ==> View() == old(View())
    {
      if !started {
        return false;
      }
      L.FieldsStep(View(), L.StopBegin(p));
      L.GensStep(View(), L.StopBegin(p));
      L.CallersStep(View(), L.StopBegin(p));
      stoppers := stoppers[p := L.Holding(|gens| - 1, |gens| - 1)];
      return true;
    }

    method Healthy(runnerHealthy: bool) returns (healthy: bool)
      ensures healthy <==> started && ready && runnerHealthy
    {
      if !started || !ready {
        return false;
      }
      return runnerHealthy;
    }

    /** `BackendDialAddress`: the second question with the normalised name is asked, and by
        `Aliases.RetryIsRedundant` the answer is the runner's first one. */
    method BackendDialAddress(index: Index, name: string) returns (addr: Result<string, DialError>)
      ensures addr == if !started then Err(NotStarted)
                      else if !ready then Err(NotReady)
                      else if Resolve(index, name).Some? then Ok(Resolve(index, name).value)
                      else Err(NotFound)
    {
      if !started {
        return Err(NotStarted);
      }
      if !ready {
        return Err(NotReady);
      }
      var found := Resolve(index, name);
      if found.None? {
        var normalized := LookupName(name);
        if normalized != name {
          found := Resolve(index, normalized);
        }
      }
      RetryIsRedundant(index, name);
      if found.None? {
        return Err(NotFound);
      }
      return Ok(found.value);
    }
  }
}
