/** The embedded runner (go/embedded.go): the same alias index, kept next to a native
    runtime that really adds and removes backends. What native calls answer is a
    parameter; when they may be made is the subject of EmbeddedLifecycle.dfy. */
module Embedded {
  import opened Names
  import opened Aliases

  datatype RunnerError = NotStarted | DuplicateBackend | BackendNotFound

  class EmbeddedRunner {
    var healthy: bool
    var loaded: bool      // symbols and thread are set
    var backends: Index

    constructor ()
      ensures !healthy && !loaded && backends == map[]
    {
      healthy, loaded, backends := false, false, map[];
    }

    method BackendAddress(name: string) returns (addr: Option<string>)
      ensures addr == Resolve(backends, name)
    {
      addr := Get(backends, name);
      if addr.None? {
        addr := Get(backends, LookupName(name));
      }
    }

    /** The start of `run`: ask the native runtime for each static backend's address. An
        empty answer ends it; the index is then the stores made so far. */
    method Populate(names: seq<string>, native: seq<string>) returns (ok: bool)
      requires |names| == |native|
      modifies this`backends
      ensures ok <==> "" !in native
      ensures ok ==> backends == LoopbackIndex(names, native)
    {
      backends := map[];
      for i := 0 to |names|
        invariant backends == LoopbackIndex(names[..i], native[..i])
        invariant forall j :: 0 <= j < i ==> native[j] != ""
      {
        var addr := native[i];
        if addr == "" {
          return false;
        }
        assert names[..i + 1][..i] == names[..i] && native[..i + 1][..i] == native[..i];
        backends := Store(backends, names[i], addr);
      }
      assert names[..|names|] == names && native[..|native|] == native;
      return true;
    }

    method AddBackend(name: string, native: string) returns (addr: Result<string, RunnerError>)
      modifies this`backends
      ensures addr == if !loaded || !healthy then Err(NotStarted)
                      else if LookupName(name) in old(backends) then Err(DuplicateBackend)
                      else if native == "" then Err(BackendNotFound)
                      else Ok(native)
      ensures backends == if addr.Ok? then Store(old(backends), name, native) else old(backends)
    {
      if !loaded || !healthy {
        return Err(NotStarted);
      }
      if LookupName(name) in backends {
        return Err(DuplicateBackend);
      }
      if native == "" {
        return Err(BackendNotFound);
      }
      backends := Store(backends, name, native);
      return Ok(native);
    }

    /** Deletes in an arbitrary order every alias with the key, none other. */
    method RemoveBackend(name: string, nativeCode: int) returns (error: Option<RunnerError>)
      modifies this`backends
      ensures error == if !loaded || !healthy then Some(NotStarted)
                       else if LookupName(name) !in old(backends) || nativeCode != 0 then Some(BackendNotFound)
                       else None
      ensures backends == if error.None? then ScanDelete(old(backends), LookupName(name)) else old(backends)
    {
      if !loaded || !healthy {
        return Some(NotStarted);
      }
      var key := LookupName(name);
      if key !in backends || nativeCode != 0 {
        return Some(BackendNotFound);
      }
      var aliases := backends.Keys;
      ghost var before := backends;
      while aliases != {}
        invariant aliases <= before.Keys
        invariant forall n :: n in backends ==> n in before && backends[n] == before[n]
        invariant forall n :: n in before ==> (n in backends <==> n in aliases || LookupName(n) != key)
        decreases aliases
      {
        var alias :| alias in aliases;
        if LookupName(alias) == key {
          backends := backends - {alias};
        }
        aliases := aliases - {alias};
      }
      return None;
    }
  }

  /** One change of the set of backends, as both runners make it. */
  datatype Change = Added(name: string, addr: string) | Removed(key: string)

  predicate Applies(plan: Plan, ch: Change) {
    match ch
    case Added(name, _) => LookupName(name) !in plan
    case Removed(key) => key in plan
  }

  function PlanAfter(plan: Plan, ch: Change): Plan {
    match ch
    case Added(name, addr) => plan[LookupName(name) := Entry(name, addr)]
    case Removed(key) => plan - {key}
  }

  /** The index after a change, with either runner's way of deleting. */
  function IndexAfter(m: Index, plan: Plan, ch: Change, scan: bool): Index
    requires Applies(plan, ch)
  {
    match ch
    case Added(name, addr) => Store(m, name, addr)
    case Removed(key) => if scan then ScanDelete(m, key) else DeleteTwo(m, plan[key].name)
  }

  predicate AllApply(plan: Plan, changes: seq<Change>)
    decreases |changes|
  {
    changes != [] ==> Applies(plan, changes[0]) && AllApply(PlanAfter(plan, changes[0]), changes[1..])
  }

  function FinalIndex(m: Index, plan: Plan, changes: seq<Change>, scan: bool): Index
    requires AllApply(plan, changes)
    decreases |changes|
  {
    if changes == [] then m
    else FinalIndex(IndexAfter(m, plan, changes[0], scan), PlanAfter(plan, changes[0]), changes[1..], scan)
  }

  /** Over any history of changes the two runners keep the same index, and it answers
      every spelling from the plan. */
  lemma {:induction false} RunnersKeepTheSameIndex(m: Index, plan: Plan, changes: seq<Change>)
    requires Agrees(m, plan) && WellKeyed(plan) && AllApply(plan, changes)
    ensures FinalIndex(m, plan, changes, true) == FinalIndex(m, plan, changes, false)
    ensures exists final :: WellKeyed(final) && Agrees(FinalIndex(m, plan, changes, true), final)
    decreases |changes|
  {
    if changes != [] {
      match changes[0] {
        case Added(name, addr) => StoreAgrees(m, plan, name, addr);
        case Removed(key) =>
          DeleteTwoAgrees(m, plan, key);
          RemovalsAgree(m, plan, key);
      }
      hide Agrees, WellKeyed, Store, ScanDelete, DeleteTwo;
      RunnersKeepTheSameIndex(IndexAfter(m, plan, changes[0], true), PlanAfter(plan, changes[0]), changes[1..]);
    }
  }
}
