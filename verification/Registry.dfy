/** The five maps of `subprocessRunner` (go/subprocess.go, lines 56-71) and what each
    region under its mutex does to them, as functions from maps to maps. The class in
    Runner.dfy has the same maps as fields and is proved against these functions. */
module Registry {
  import opened Names
  import opened Aliases

  /** `subprocessBackendProcess`: the id stands for its identity, the token for `releaseAddr`. */
  datatype Proc = Proc(id: nat, name: string, addr: string, token: Option<nat>)

  datatype Maps = Maps(
    backends: Index,
    dynamic: map<string, Proc>,
    adding: set<string>,
    pending: map<string, Proc>,
    reserving: map<string, string>)

  /** The four duplicate checks at the start of `addBackend`. */
  predicate Unclaimed(r: Maps, key: string) {
    key !in r.backends && key !in r.dynamic && key !in r.adding && key !in r.pending
  }

  function Mark(r: Maps, key: string): Maps {
    r.(adding := r.adding + {key})
  }

  function Unmark(r: Maps, key: string): Maps {
    r.(adding := r.adding - {key})
  }

  function PublishedAt(index: Index, addr: string): set<string> {
    set n | n in index && index[n] == addr
  }

  function PendingAt(pending: map<string, Proc>, addr: string): set<string> {
    set k | k in pending && pending[k].addr == addr
  }

  /** The names `addressOwnerLocked` may report: it returns the first hit of a map
      iteration, and looks at one map only when the maps before it have no hit. */
  function Owners(r: Maps, addr: string): set<string> {
    if PublishedAt(r.backends, addr) != {} then PublishedAt(r.backends, addr)
    else if PendingAt(r.pending, addr) != {} then PendingAt(r.pending, addr)
    else if addr in r.reserving then {r.reserving[addr]}
    else {}
  }

  function Reserve(r: Maps, addr: string, key: string): Maps {
    r.(reserving := r.reserving[addr := key])
  }

  function Unreserve(r: Maps, addr: string, key: string): Maps {
    if Get(r.reserving, addr) == Some(key) then r.(reserving := r.reserving - {addr}) else r
  }

  function GoPending(r: Maps, key: string, proc: Proc): Maps {
    r.(adding := r.adding - {key}, pending := r.pending[key := proc])
  }

  function DropPending(r: Maps, key: string, proc: Proc): Maps {
    if Get(r.pending, key) == Some(proc) then r.(pending := r.pending - {key}) else r
  }

  function Publish(r: Maps, key: string, proc: Proc): Maps {
    Unreserve(r, proc.addr, key).(
      pending := r.pending - {key},
      dynamic := r.dynamic[key := proc],
      backends := Store(r.backends, proc.name, proc.addr))
  }

  function Unpublish(r: Maps, key: string): Maps
    requires key in r.dynamic
  {
    r.(dynamic := r.dynamic - {key}, backends := DeleteTwo(r.backends, r.dynamic[key].name))
  }

  /** `dynamicBackendExited`: both deletes only when the map still names this process. */
  function Exited(r: Maps, key: string, proc: Proc): Maps {
    DropPending(if Get(r.dynamic, key) == Some(proc) then Unpublish(r, key) else r, key, proc)
  }

  ghost predicate DynamicSpelling(dynamic: map<string, Proc>, n: string) {
    exists k :: k in dynamic && (n == dynamic[k].name || n == LookupName(dynamic[k].name))
  }

  /** The critical section of `stopDynamicBackends`. */
  ghost function TakeAll(r: Maps): Maps {
    Maps(map n | n in r.backends && !DynamicSpelling(r.dynamic, n) :: r.backends[n], map[], {}, map[], map[])
  }

  /** The runtimes it hands over to be stopped. */
  function Taken(r: Maps): set<nat> {
    (set k | k in r.dynamic :: r.dynamic[k].id) + (set k | k in r.pending :: r.pending[k].id)
  }
}
