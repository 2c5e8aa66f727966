/** `subprocessRunner` as the object it is: five maps updated in place. Every method is one
    region under the runner's mutex (go/subprocess.go) and is proved against the function of
    Registry.dfy that the protocol uses for that region. */
module Runner {
  import opened Names
  import opened Aliases
  import opened Registry
  import opened Protocol

  datatype AddError = NotStarted | Duplicate
  datatype RemoveError = Unsupported | NotFound

  class SubprocessRunner {
    var healthy: bool
    var bin: string
    var backends: Index
    var dynamic: map<string, Proc>
    var adding: set<string>
    var pending: map<string, Proc>
    var reserving: map<string, string>

    function View(): Maps
      reads this
    {
      Maps(backends, dynamic, adding, pending, reserving)
    }

    constructor (bin: string)
      ensures View() == Maps(map[], map[], {}, map[], map[])
      ensures !healthy && this.bin == bin
    {
      healthy := false;
      this.bin := bin;
      backends, dynamic, adding, pending, reserving := map[], map[], {}, map[], map[];
    }

    method BackendAddress(name: string) returns (addr: Option<string>)
      ensures addr == Resolve(backends, name)
    {
      addr := Get(backends, name);
      if addr.None? {
        addr := Get(backends, LookupName(name));
      }
    }

    method StoreBackendAddress(name: string, addr: string)
      modifies this`backends
      ensures backends == Store(old(backends), name, addr)
    {
      backends := backends[name := addr];
      backends := backends[LookupName(name) := addr];
    }

    /** The admission region. */
    method Admit(name: string) returns (error: Option<AddError>)
      modifies this`adding
      ensures error.None? <==> healthy && bin != "" && Unclaimed(old(View()), LookupName(name))
      ensures error == Some(NotStarted) <==> !healthy || bin == ""
      ensures error == Some(Duplicate) <==>
                && healthy && bin != ""
                && (|| LookupName(name) in backends || LookupName(name) in dynamic
                    || LookupName(name) in old(adding) || LookupName(name) in pending)
      ensures View() == if error.None? then Mark(old(View()), LookupName(name)) else old(View())
    {
      if !healthy || bin == "" {
        return Some(NotStarted);
      }
      var key := LookupName(name);
      if key in backends || key in dynamic || key in adding || key in pending {
        return Some(Duplicate);
      }
      adding := adding + {key};
      return None;
    }

    method CleanupAdding(key: string)
      modifies this`adding
      ensures View() == Unmark(old(View()), key)
    {
      adding := adding - {key};
    }

    /** Three scans in a fixed order, each in an arbitrary order of its map. */
    method AddressOwnerLocked(addr: string) returns (owner: Option<string>)
      ensures owner.None? <==> Owners(View(), addr) == {}
      ensures owner.Some? ==> owner.value in Owners(View(), addr)
    {
      var names := backends.Keys;
      while names != {}
        invariant names <= backends.Keys
        invariant forall n :: n in backends && n !in names ==> backends[n] != addr
        decreases names
      {
        var n :| n in names;
        if backends[n] == addr {
          assert n in PublishedAt(backends, addr);
          return Some(n);
        }
        names := names - {n};
      }
      var keys := pending.Keys;
      while keys != {}
        invariant keys <= pending.Keys
        invariant forall k :: k in pending && k !in keys ==> pending[k].addr != addr
        decreases keys
      {
        var k :| k in keys;
        if pending[k].addr == addr {
          assert PublishedAt(backends, addr) == {} && k in PendingAt(pending, addr);
          return Some(k);
        }
        keys := keys - {k};
      }
      assert PublishedAt(backends, addr) == {} && PendingAt(pending, addr) == {};
      return Get(reserving, addr);
    }

    /** `offers` is what the allocator answers, in order. A conflicting address is given
        back at once; `returned` lists which ones were. */
    method ReserveDynamicAddressLocked(key: string, offers: seq<Option<string>>)
      returns (addr: Option<string>, answers: seq<Answer>, returned: seq<nat>)
      requires |offers| == ATTEMPTS
      modifies this`reserving
      ensures ReserveRun(old(View()), key, answers)
      ensures Follows(offers, answers)
      ensures addr.Some? <==> Accepts(old(View()), key, answers[|answers| - 1])
      ensures addr.Some? ==> addr == offers[|answers| - 1]
      ensures View() == if addr.Some? then Reserve(old(View()), addr.value, key) else old(View())
      ensures returned == seq(if addr.Some? || answers[|answers| - 1].Fault? then |answers| - 1 else |answers|, i => i)
    {
      answers, returned := [], [];
      var attempt := 0;
      while attempt < ATTEMPTS
        invariant 0 <= attempt <= ATTEMPTS && |answers| == attempt
        invariant View() == old(View())
        invariant forall i :: 0 <= i < attempt ==> Conflicts(View(), key, answers[i]) && Some(answers[i].addr) == offers[i]
        invariant returned == seq(attempt, i => i)
      {
        if offers[attempt].None? {
          answers := answers + [Fault];
          return None, answers, returned;
        }
        var candidate := offers[attempt].value;
        var owner := AddressOwnerLocked(candidate);
        answers := answers + [Offer(candidate, owner)];
        if owner.Some? && owner.value != key {
          returned := returned + [attempt];
          attempt := attempt + 1;
          continue;
        }
        reserving := reserving[candidate := key];
        return Some(candidate), answers, returned;
      }
      return None, answers, returned;
    }

    method ReleaseReservation(addr: string, key: string)
      modifies this`reserving
      ensures View() == Unreserve(old(View()), addr, key)
      ensures reserving == if addr in old(reserving) && old(reserving)[addr] == key then old(reserving) - {addr} else old(reserving)
    {
      if addr in reserving && reserving[addr] == key {
        reserving := reserving - {addr};
      }
    }

    /** The region that starts the child; `spawned` is whether `cmd.Start` succeeds. */
    method Launch(key: string, proc: Proc, spawned: bool) returns (started: bool)
      modifies this`adding, this`pending
      ensures started <==> healthy && bin != "" && spawned
      ensures View() == if started then GoPending(old(View()), key, proc) else Unmark(old(View()), key)
    {
      adding := adding - {key};
      if !healthy || bin == "" || !spawned {
        return false;
      }
      pending := pending[key := proc];
      return true;
    }

    method LeavePending(key: string, proc: Proc)
      modifies this`pending
      ensures View() == Registry.DropPending(old(View()), key, proc)
    {
      if key in pending && pending[key] == proc {
        pending := pending - {key};
      }
    }

    /** The last region of `addBackend`: publish, or refuse because of a stop. */
    method PublishOrRefuse(key: string, proc: Proc) returns (published: bool)
      modifies this`pending, this`reserving, this`dynamic, this`backends
      ensures published <==> healthy && bin != "" && Get(old(pending), key) == Some(proc)
      ensures View() == if published then Registry.Publish(old(View()), key, proc)
                        else if healthy && bin != "" then old(View())
                        else Registry.DropPending(old(View()), key, proc)
    {
      if !healthy || bin == "" {
        LeavePending(key, proc);
        return false;
      }
      if key !in pending || pending[key] != proc {
        return false;
      }
      pending := pending - {key};
      ReleaseReservation(proc.addr, key);
      dynamic := dynamic[key := proc];
      StoreBackendAddress(proc.name, proc.addr);
      return true;
    }

    method DeleteSpellings(name: string)
      modifies this`backends
      ensures backends == DeleteTwo(old(backends), name)
    {
      backends := backends - {name};
      backends := backends - {LookupName(name)};
    }

    /** The region of `removeBackend`: the runtime to stop, if the key is published. */
    method Remove(name: string) returns (taken: Option<Proc>)
      modifies this`dynamic, this`backends
      ensures taken == Get(old(dynamic), LookupName(name))
      ensures View() == if taken.Some? then Unpublish(old(View()), LookupName(name)) else old(View())
    {
      var key := LookupName(name);
      if key !in dynamic {
        return None;
      }
      taken := Some(dynamic[key]);
      dynamic := dynamic - {key};
      DeleteSpellings(taken.value.name);
    }

    /** Lines 547-550, in a region of its own: why there was nothing to remove. */
    method RemovalError(name: string) returns (error: RemoveError)
      ensures error.Unsupported? <==> name in backends || LookupName(name) in backends
    {
      var addr := BackendAddress(name);
      return if addr.Some? then Unsupported else NotFound;
    }

    method DynamicBackendExited(key: string, proc: Proc)
      modifies this`dynamic, this`backends, this`pending
      ensures View() == Registry.Exited(old(View()), key, proc)
    {
      if key in dynamic && dynamic[key] == proc {
        dynamic := dynamic - {key};
        DeleteSpellings(proc.name);
      }
      LeavePending(key, proc);
    }

    /** The critical section of `stopDynamicBackends`: both maps are emptied entry by entry,
        in any order, and exactly their entries are handed over to be stopped. */
    method StopDynamicBackends() returns (processes: seq<Proc>)
      modifies this`dynamic, this`backends, this`pending, this`adding, this`reserving
      ensures View() == TakeAll(old(View()))
      ensures dynamic == map[] && pending == map[] && adding == {} && reserving == map[]
      ensures forall p :: p in processes <==> p in old(dynamic).Values || p in old(pending).Values
      ensures (set p | p in processes :: p.id) == Taken(old(View()))
    {
      processes := TakeDynamic();
      var more := TakePending();
      processes := processes + more;
      adding := {};
      reserving := map[];
      TakenIds(old(View()), processes);
    }

    method TakeOneDynamic() returns (key: string, proc: Proc)
      requires dynamic != map[]
      modifies this`dynamic, this`backends
      ensures key in old(dynamic) && proc == old(dynamic)[key]
      ensures dynamic == old(dynamic) - {key} && backends == DeleteTwo(old(backends), proc.name)
    {
      key :| key in dynamic;
      proc := dynamic[key];
      dynamic := dynamic - {key};
      DeleteSpellings(proc.name);
    }

    method TakeDynamic() returns (processes: seq<Proc>)
      modifies this`dynamic, this`backends
      ensures dynamic == map[] && backends == Without(old(backends), old(dynamic))
      ensures forall p :: p in processes <==> p in old(dynamic).Values
    {
      WithoutNothing(backends);
      hide DynamicSpelling, LookupName, Without, DeleteTwo;
      processes := [];
      ghost var gone: map<string, Proc> := map[];
      while dynamic != map[]
        invariant dynamic.Keys !! gone.Keys && dynamic + gone == old(dynamic)
        invariant backends == Without(old(backends), gone)
        invariant forall p :: p in processes <==> p in gone.Values
        decreases dynamic.Keys
      {
        ghost var before := dynamic;
        var key, proc := TakeOneDynamic();
        processes := processes + [proc];
        MoveOne(before, gone, key);
        WithoutOneMore(old(backends), gone, key, proc);
        gone := gone[key := proc];
      }
      assert gone == old(dynamic);
    }

    method TakePending() returns (processes: seq<Proc>)
      modifies this`pending
      ensures pending == map[]
      ensures forall p :: p in processes <==> p in old(pending).Values
    {
      processes := [];
      while pending != map[]
        invariant forall k :: k in pending ==> k in old(pending) && pending[k] == old(pending)[k]
        invariant forall p :: p in processes ==> p in old(pending).Values
        invariant forall k :: k in old(pending) && k !in pending ==> old(pending)[k] in processes
        decreases pending.Keys
      {
        var key :| key in pending;
        processes := processes + [pending[key]];
        pending := pending - {key};
      }
    }
  }

  // ----- which offer is taken -----

  /** What the allocator offered is what the loop looked at. */
  predicate Follows(offers: seq<Option<string>>, answers: seq<Answer>) {
    && |answers| <= |offers|
    && forall i :: 0 <= i < |answers| ==>
         answers[i].Fault? == offers[i].None? && (answers[i].Offer? ==> Some(answers[i].addr) == offers[i])
  }

  predicate TakenByOthers(r: Maps, key: string, offer: Option<string>) {
    offer.Some? && Owners(r, offer.value) != {} && key !in Owners(r, offer.value)
  }

  predicate FreeOrOwn(r: Maps, key: string, offer: Option<string>) {
    offer.Some? && forall owner :: owner in Owners(r, offer.value) ==> owner == key
  }

  /** Of eight offers the first that nobody else is promised is the one reserved. */
  lemma FirstFreeIsReserved(r: Maps, key: string, offers: seq<Option<string>>, answers: seq<Answer>, i: nat)
    requires |offers| == 8 && ReserveRun(r, key, answers) && Follows(offers, answers)
    requires i < 8 && FreeOrOwn(r, key, offers[i]) && forall k :: 0 <= k < i ==> TakenByOthers(r, key, offers[k])
    ensures |answers| == i + 1 && Accepts(r, key, answers[i]) && Some(answers[i].addr) == offers[i]
  {
    var last := |answers| - 1;
    hide Owners;
    assert last < i ==> TakenByOthers(r, key, offers[last]);
    assert i < last ==> Conflicts(r, key, answers[i]);
    assert forall k :: 0 <= k < i && k < |answers| ==> !Accepts(r, key, answers[k]);
  }

  /** When others are promised all eight, or the allocator fails first, none is reserved. */
  lemma NoneFreeNoneReserved(r: Maps, key: string, offers: seq<Option<string>>, answers: seq<Answer>)
    requires |offers| == 8 && ReserveRun(r, key, answers) && Follows(offers, answers)
    requires forall k :: 0 <= k < 8 && offers[k].Some? ==> TakenByOthers(r, key, offers[k])
    ensures !Accepts(r, key, answers[|answers| - 1])
    ensures answers[|answers| - 1].Offer? ==> |answers| == 8
  {
    hide Owners;
    assert TakenByOthers(r, key, offers[|answers| - 1]) || offers[|answers| - 1].None?;
  }

  ghost function Without(index: Index, gone: map<string, Proc>): Index {
    map n | n in index && !DynamicSpelling(gone, n) :: index[n]
  }

  lemma WithoutNothing(index: Index)
    ensures Without(index, map[]) == index
  {
  }

  lemma MoveOne(here: map<string, Proc>, gone: map<string, Proc>, key: string)
    requires key in here && here.Keys !! gone.Keys
    ensures (here - {key}) + gone[key := here[key]] == here + gone
    ensures (here - {key}).Keys !! gone[key := here[key]].Keys
    ensures forall p :: p in gone[key := here[key]].Values <==> p in gone.Values || p == here[key]
  {
    var gone' := gone[key := here[key]];
    assert gone'[key] == here[key];
    forall p | p in gone.Values ensures p in gone'.Values {
      var k :| k in gone && gone[k] == p;
      assert gone'[k] == p;
    }
  }

  lemma WithoutOneMore(index: Index, gone: map<string, Proc>, key: string, proc: Proc)
    requires key !in gone
    ensures DeleteTwo(Without(index, gone), proc.name) == Without(index, gone[key := proc])
  {
    var gone' := gone[key := proc];
    forall n ensures DynamicSpelling(gone', n) <==> DynamicSpelling(gone, n) || n == proc.name || n == LookupName(proc.name) {
      if DynamicSpelling(gone, n) {
        var k :| k in gone && (n == gone[k].name || n == LookupName(gone[k].name));
        assert k in gone' && gone'[k] == gone[k];
      }
      if n == proc.name || n == LookupName(proc.name) {
        assert gone'[key] == proc;
      }
    }
  }

  lemma TakenIds(m: Maps, processes: seq<Proc>)
    requires forall p :: p in processes <==> p in m.dynamic.Values || p in m.pending.Values
    ensures (set p | p in processes :: p.id) == Taken(m)
  {
    forall id | id in Taken(m) ensures id in (set p | p in processes :: p.id) {
      if k :| k in m.dynamic && m.dynamic[k].id == id {
        assert m.dynamic[k] in processes;
      } else {
        var k :| k in m.pending && m.pending[k].id == id;
        assert m.pending[k] in processes;
      }
    }
    forall p | p in processes ensures p.id in Taken(m) {
      if p in m.dynamic.Values {
        var k :| k in m.dynamic && m.dynamic[k] == p;
      } else {
        var k :| k in m.pending && m.pending[k] == p;
      }
    }
  }
}
