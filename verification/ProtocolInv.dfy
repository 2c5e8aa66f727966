/** What every step of the protocol keeps under hypothesis H: who owns a key, who owns
    an address, and that the alias index is the plan of static and published backends. */
module ProtocolInv {
  import opened Names
  import opened Aliases
  import opened Registry
  import opened Protocol

  predicate Marked(p: Phase) {
    p.Admitted? || p.Reserved? || ((p.DropReservation? || p.ReturnAddress? || p.DropMark?) && p.mark.Held?)
  }

  predicate InPending(p: Phase) {
    p.Waiting? || p.Ready? || p.Owned? || p.StopPending? || p.LeavePending?
  }

  /** The add still has something to do to the maps under its key. */
  predicate Active(p: Phase) {
    Marked(p) || InPending(p) || CleaningUp(p)
  }

  predicate HoldsAddress(p: Phase) {
    p.Reserved? || InPending(p) || p.StopUnpublished? || p.DropReservation?
  }

  type Adds = map<nat, Add>

  predicate EntryOf(adds: Adds, k: string, proc: Proc) {
    && proc.id in adds
    && adds[proc.id].key == k
    && proc == ProcOf(proc.id, adds[proc.id])
  }

  ghost predicate KeysNamed(adds: Adds) {
    forall a :: a in adds ==> adds[a].key == LookupName(adds[a].name)
  }

  ghost predicate Entries(m: Maps, adds: Adds) {
    && (forall k :: k in m.pending ==> EntryOf(adds, k, m.pending[k]) && InPending(adds[m.pending[k].id].phase))
    && (forall k :: k in m.dynamic ==> EntryOf(adds, k, m.dynamic[k]) && adds[m.dynamic[k].id].phase == Published)
  }

  predicate Rivals(adds: Adds, a: nat, b: nat) {
    && a in adds && b in adds && a != b && adds[a].key == adds[b].key
    && Active(adds[a].phase) && Active(adds[b].phase)
  }

  /** At most one active add for a key. */
  ghost predicate OneAddPerKey(adds: Adds) {
    forall a, b :: !Rivals(adds, a, b)
  }

  /** An active add's key is served by nobody, static or dynamic. */
  ghost predicate ActiveIsUnserved(base: Plan, m: Maps, adds: Adds) {
    forall a :: a in adds && Active(adds[a].phase) ==> adds[a].key !in m.dynamic && adds[a].key !in base
  }

  predicate RecordedAdd(m: Maps, a: nat, d: Add) {
    && (Marked(d.phase) ==> d.key in m.adding)
    && (InPending(d.phase) ==> Get(m.pending, d.key) == Some(ProcOf(a, d)))
    && (HoldsAddress(d.phase) ==> Get(m.reserving, d.addr) == Some(d.key))
  }

  ghost predicate Recorded(m: Maps, adds: Adds) {
    forall a :: a in adds ==> RecordedAdd(m, a, adds[a])
  }

  predicate Holds(adds: Adds, a: nat, addr: string, key: string) {
    a in adds && HoldsAddress(adds[a].phase) && adds[a].addr == addr && adds[a].key == key
  }

  /** Every reservation belongs to an add that will drop it. */
  ghost predicate NoStaleReservation(m: Maps, adds: Adds) {
    forall x :: x in m.reserving ==> exists a :: Holds(adds, a, x, m.reserving[x])
  }

  predicate Serves(index: Index, addr: string) {
    exists n :: n in index && index[n] == addr
  }

  ghost predicate HeldIsUnpublished(m: Maps, adds: Adds) {
    forall a :: a in adds && HoldsAddress(adds[a].phase) ==> !Serves(m.backends, adds[a].addr)
  }

  function DynamicPlan(dynamic: map<string, Proc>): Plan {
    map k | k in dynamic :: Entry(dynamic[k].name, dynamic[k].addr)
  }

  function PlanNow(base: Plan, dynamic: map<string, Proc>): Plan {
    base + DynamicPlan(dynamic)
  }

  ghost predicate PublishedDistinct(base: Plan, dynamic: map<string, Proc>) {
    && (forall k, l :: k in dynamic && l in dynamic && k != l ==> dynamic[k].addr != dynamic[l].addr)
    && (forall k, l :: k in dynamic && l in base ==> dynamic[k].addr != base[l].addr)
    && (forall k :: k in dynamic ==> k !in base)
  }

  /** The index is the static plan plus exactly the published dynamic backends. */
  ghost predicate IndexOk(base: Plan, m: Maps) {
    && Agrees(m.backends, PlanNow(base, m.dynamic))
    && WellKeyed(PlanNow(base, m.dynamic))
    && PublishedDistinct(base, m.dynamic)
  }

  /** What the maps and the adds say about each other while no teardown has run. */
  ghost predicate Books(base: Plan, m: Maps, adds: Adds) {
    && OneAddPerKey(adds)
    && ActiveIsUnserved(base, m, adds)
    && Recorded(m, adds)
    && NoStaleReservation(m, adds)
    && HeldIsUnpublished(m, adds)
  }

  ghost predicate Core(c: Config, s: State) {
    && s.healthy == s.run.Up?
    && KeysNamed(s.adds)
    && Entries(s.maps, s.adds)
    && IndexOk(c.base, s.maps)
    && (s.run.Torn? ==> s.maps.dynamic == map[] && s.maps.pending == map[])
    && (!s.run.Torn? ==> Books(c.base, s.maps, s.adds))
  }

  // ----- one add moves on; the maps may change under its key -----

  lemma UpdateKeepsNames(adds: Adds, a: nat, d: Add)
    requires KeysNamed(adds) && a in adds && d.key == adds[a].key && d.name == adds[a].name
    ensures KeysNamed(adds[a := d])
  {
  }

  lemma NarrowKeepsOne(adds: Adds, a: nat, d: Add)
    requires OneAddPerKey(adds) && a in adds && d.key == adds[a].key
    requires Active(d.phase) ==> Active(adds[a].phase)
    ensures OneAddPerKey(adds[a := d])
  {
    var adds' := adds[a := d];
    forall x, y ensures !Rivals(adds', x, y) {
      assert !Rivals(adds, x, y);
    }
  }

  /** Dropping a mark, or recording less, hurts nobody else: no other active add has the key. */
  lemma OthersRecorded(m: Maps, m': Maps, adds: Adds, a: nat, d: Add)
    requires OneAddPerKey(adds) && Recorded(m, adds) && a in adds && Active(adds[a].phase)
    requires d.key == adds[a].key && RecordedAdd(m', a, d)
    requires forall k :: k != d.key ==> (k in m.adding ==> k in m'.adding) && Get(m'.pending, k) == Get(m.pending, k)
    requires forall x :: x in m.reserving && m.reserving[x] != d.key ==> Get(m'.reserving, x) == Get(m.reserving, x)
    ensures Recorded(m', adds[a := d])
  {
    var adds' := adds[a := d];
    forall b | b in adds' ensures RecordedAdd(m', b, adds'[b]) {
      if b != a {
        assert !Rivals(adds, a, b);
        assert RecordedAdd(m, b, adds[b]);
      }
    }
  }

  lemma StillHeld(adds: Adds, a: nat, d: Add, x: string, key: string)
    requires exists b :: Holds(adds, b, x, key)
    requires a in adds && d.key == adds[a].key && d.addr == adds[a].addr
    requires HoldsAddress(adds[a].phase) && adds[a].addr == x ==> HoldsAddress(d.phase)
    ensures var adds' := adds[a := d]; exists b :: Holds(adds', b, x, key)
  {
    var b :| Holds(adds, b, x, key);
    var adds' := adds[a := d];
    assert Holds(adds', b, x, key);
  }

  lemma ReservationsStillHeld(m: Maps, m': Maps, adds: Adds, a: nat, d: Add)
    requires NoStaleReservation(m, adds) && a in adds && d.key == adds[a].key && d.addr == adds[a].addr
    requires forall x :: x in m'.reserving ==> Get(m.reserving, x) == Some(m'.reserving[x])
    requires HoldsAddress(adds[a].phase) && !HoldsAddress(d.phase) ==> d.addr !in m'.reserving
    ensures NoStaleReservation(m', adds[a := d])
  {
    var adds' := adds[a := d];
    forall x | x in m'.reserving ensures exists b :: Holds(adds', b, x, m'.reserving[x]) {
      assert x in m.reserving;
      StillHeld(adds, a, d, x, m.reserving[x]);
    }
  }

  // ----- the books, step by step -----

  predicate SamePlace(p: Phase, q: Phase) {
    && (Marked(q) ==> Marked(p))
    && (Active(q) ==> Active(p))
    && InPending(p) == InPending(q)
    && HoldsAddress(p) == HoldsAddress(q)
    && p.Published? == q.Published?
  }

  lemma PhaseKeepsBooks(base: Plan, m: Maps, adds: Adds, a: nat, p: Phase)
    requires Books(base, m, adds) && a in adds && SamePlace(adds[a].phase, p)
    ensures Books(base, m, adds[a := adds[a].(phase := p)])
  {
    NarrowKeepsOne(adds, a, adds[a].(phase := p));
    ReservationsStillHeld(m, m, adds, a, adds[a].(phase := p));
  }

  lemma PhaseKeepsEntries(m: Maps, adds: Adds, a: nat, p: Phase)
    requires Entries(m, adds) && a in adds && SamePlace(adds[a].phase, p)
    ensures Entries(m, adds[a := adds[a].(phase := p)])
  {
  }

  lemma CorePhase(c: Config, s: State, t: State, a: nat, p: Phase)
    requires Core(c, s) && a in s.adds && t.maps == s.maps && t.run == s.run && t.healthy == s.healthy
    requires t.adds == s.adds[a := s.adds[a].(phase := p)] && SamePlace(s.adds[a].phase, p)
    ensures Core(c, t)
  {
    UpdateKeepsNames(s.adds, a, s.adds[a].(phase := p));
    PhaseKeepsEntries(s.maps, s.adds, a, p);
    if !s.run.Torn? {
      PhaseKeepsBooks(c.base, s.maps, s.adds, a, p);
    }
  }

  lemma CoreSame(c: Config, s: State, t: State)
    requires Core(c, s) && t.maps == s.maps && t.adds == s.adds
    requires t.run.Torn? == s.run.Torn? && t.healthy == t.run.Up?
    ensures Core(c, t)
  {
  }

  /** A phase change together with map changes under the add's own key only. */
  lemma OwnKeyKeepsBooks(base: Plan, m: Maps, m': Maps, adds: Adds, a: nat, p: Phase)
    requires Books(base, m, adds) && a in adds
    requires Active(adds[a].phase) && m'.backends == m.backends && m'.dynamic == m.dynamic
    requires RecordedAdd(m', a, adds[a].(phase := p))
    requires HoldsAddress(p) ==> HoldsAddress(adds[a].phase)
    requires forall k :: k != adds[a].key ==> (k in m.adding ==> k in m'.adding) && Get(m'.pending, k) == Get(m.pending, k)
    requires forall x :: x in m.reserving && m.reserving[x] != adds[a].key ==> Get(m'.reserving, x) == Get(m.reserving, x)
    requires forall x :: x in m'.reserving ==> Get(m.reserving, x) == Some(m'.reserving[x])
    requires HoldsAddress(adds[a].phase) && !HoldsAddress(p) ==> adds[a].addr !in m'.reserving
    ensures Books(base, m', adds[a := adds[a].(phase := p)])
  {
    var d := adds[a].(phase := p);
    NarrowKeepsOne(adds, a, d);
    OthersRecorded(m, m', adds, a, d);
    ReservationsStillHeld(m, m', adds, a, d);
  }

  lemma CoreOwnKey(c: Config, s: State, t: State, a: nat, p: Phase)
    requires Core(c, s) && a in s.adds && t.run == s.run && t.healthy == s.healthy
    requires t.adds == s.adds[a := s.adds[a].(phase := p)]
    requires t.maps.backends == s.maps.backends && t.maps.dynamic == s.maps.dynamic
    requires Entries(t.maps, t.adds)
    requires s.run.Torn? ==> t.maps.pending == map[]
    requires !s.run.Torn? ==> Books(c.base, t.maps, t.adds)
    ensures Core(c, t)
  {
    UpdateKeepsNames(s.adds, a, s.adds[a].(phase := p));
  }

  predicate Unmarkable(p: Phase, q: Phase) {
    && Active(p) && !InPending(p) && !Marked(q) && !InPending(q) && !q.Published?
    && HoldsAddress(p) == HoldsAddress(q)
  }

  lemma UnmarkBooks(base: Plan, m: Maps, adds: Adds, a: nat, p: Phase)
    requires Books(base, m, adds) && a in adds && Unmarkable(adds[a].phase, p)
    ensures Books(base, Unmark(m, adds[a].key), adds[a := adds[a].(phase := p)])
  {
    assert RecordedAdd(m, a, adds[a]);
    OwnKeyKeepsBooks(base, m, Unmark(m, adds[a].key), adds, a, p);
  }

  lemma UnmarkEntries(m: Maps, adds: Adds, a: nat, p: Phase)
    requires Entries(m, adds) && a in adds && Unmarkable(adds[a].phase, p)
    ensures Entries(Unmark(m, adds[a].key), adds[a := adds[a].(phase := p)])
  {
  }

  lemma CoreUnmark(c: Config, s: State, t: State, a: nat, p: Phase)
    requires Core(c, s) && a in s.adds && t.run == s.run && t.healthy == s.healthy
    requires t.maps == Unmark(s.maps, s.adds[a].key) && t.adds == s.adds[a := s.adds[a].(phase := p)]
    requires Unmarkable(s.adds[a].phase, p)
    ensures Core(c, t)
  {
    UnmarkEntries(s.maps, s.adds, a, p);
    if !s.run.Torn? {
      UnmarkBooks(c.base, s.maps, s.adds, a, p);
    }
    CoreOwnKey(c, s, t, a, p);
  }

  lemma UnreserveBooks(base: Plan, m: Maps, adds: Adds, a: nat, p: Phase)
    requires Books(base, m, adds) && a in adds && adds[a].phase.DropReservation? && p == ReturnAddress(adds[a].phase.mark)
    ensures Books(base, Unreserve(m, adds[a].addr, adds[a].key), adds[a := adds[a].(phase := p)])
  {
    assert RecordedAdd(m, a, adds[a]);
    if Active(adds[a].phase) {
      OwnKeyKeepsBooks(base, m, Unreserve(m, adds[a].addr, adds[a].key), adds, a, p);
    }
  }

  lemma UnreserveEntries(m: Maps, adds: Adds, a: nat, p: Phase)
    requires Entries(m, adds) && a in adds && adds[a].phase.DropReservation? && p == ReturnAddress(adds[a].phase.mark)
    ensures Entries(Unreserve(m, adds[a].addr, adds[a].key), adds[a := adds[a].(phase := p)])
  {
  }

  lemma CoreUnreserve(c: Config, s: State, t: State, a: nat, p: Phase)
    requires Core(c, s) && a in s.adds && s.adds[a].phase.DropReservation? && p == ReturnAddress(s.adds[a].phase.mark)
    requires t.run == s.run && t.healthy == s.healthy
    requires t.maps == Unreserve(s.maps, s.adds[a].addr, s.adds[a].key)
    requires t.adds == s.adds[a := s.adds[a].(phase := p)]
    ensures Core(c, t)
  {
    UnreserveEntries(s.maps, s.adds, a, p);
    if !s.run.Torn? {
      UnreserveBooks(c.base, s.maps, s.adds, a, p);
    }
    CoreOwnKey(c, s, t, a, p);
  }

  predicate Leaves(p: Phase) {
    p == StopUnpublished || p == DropReservation(Gone)
  }

  lemma DropPendingBooks(base: Plan, m: Maps, adds: Adds, a: nat, p: Phase)
    requires Books(base, m, adds) && a in adds && InPending(adds[a].phase) && Leaves(p)
    ensures Books(base, Registry.DropPending(m, adds[a].key, ProcOf(a, adds[a])), adds[a := adds[a].(phase := p)])
  {
    assert RecordedAdd(m, a, adds[a]);
    OwnKeyKeepsBooks(base, m, Registry.DropPending(m, adds[a].key, ProcOf(a, adds[a])), adds, a, p);
  }

  /** Without the entry in `pending`, the only map entry the add could have is gone. */
  lemma DropPendingEntries(m: Maps, adds: Adds, a: nat, p: Phase)
    requires Entries(m, adds) && a in adds && InPending(adds[a].phase) && Leaves(p)
    ensures Entries(Registry.DropPending(m, adds[a].key, ProcOf(a, adds[a])), adds[a := adds[a].(phase := p)])
  {
  }

  lemma CoreDropPending(c: Config, s: State, t: State, a: nat, p: Phase)
    requires Core(c, s) && a in s.adds && InPending(s.adds[a].phase) && Leaves(p)
    requires t.run == s.run && t.healthy == s.healthy
    requires t.maps == Registry.DropPending(s.maps, s.adds[a].key, ProcOf(a, s.adds[a]))
    requires t.adds == s.adds[a := s.adds[a].(phase := p)]
    ensures Core(c, t)
  {
    DropPendingEntries(s.maps, s.adds, a, p);
    if !s.run.Torn? {
      DropPendingBooks(c.base, s.maps, s.adds, a, p);
    }
    CoreOwnKey(c, s, t, a, p);
  }

  lemma GoPendingBooks(base: Plan, m: Maps, adds: Adds, a: nat)
    requires Books(base, m, adds) && a in adds && adds[a].phase.Reserved?
    ensures Books(base, GoPending(m, adds[a].key, ProcOf(a, adds[a])), adds[a := adds[a].(phase := Waiting)])
  {
    assert RecordedAdd(m, a, adds[a]);
    OwnKeyKeepsBooks(base, m, GoPending(m, adds[a].key, ProcOf(a, adds[a])), adds, a, Waiting);
  }

  lemma GoPendingEntries(m: Maps, adds: Adds, a: nat)
    requires Entries(m, adds) && a in adds && adds[a].phase.Reserved?
    ensures Entries(GoPending(m, adds[a].key, ProcOf(a, adds[a])), adds[a := adds[a].(phase := Waiting)])
  {
  }

  lemma CoreGoPending(c: Config, s: State, t: State, a: nat)
    requires Core(c, s) && At(s, a, Reserved) && s.healthy
    requires t.run == s.run && t.healthy == s.healthy
    requires t.maps == GoPending(s.maps, s.adds[a].key, ProcOf(a, s.adds[a]))
    requires t.adds == s.adds[a := s.adds[a].(phase := Waiting)]
    ensures Core(c, t)
  {
    GoPendingEntries(s.maps, s.adds, a);
    GoPendingBooks(c.base, s.maps, s.adds, a);
    CoreOwnKey(c, s, t, a, Waiting);
  }

  // ----- admission -----

  lemma PlannedIsServed(index: Index, plan: Plan, k: string)
    requires Agrees(index, plan) && WellKeyed(plan) && k in plan
    ensures k in index && Serves(index, plan[k].addr)
  {
    LookupNameIdempotent(plan[k].name);
    assert Get(index, k) == Spell(plan, k);
  }

  lemma AdmitBooks(base: Plan, m: Maps, adds: Adds, a: nat, d: Add)
    requires Books(base, m, adds) && IndexOk(base, m) && a !in adds && d.phase == Admitted
    requires Unclaimed(m, d.key) && Quiet(adds, d.key)
    ensures Books(base, Mark(m, d.key), adds[a := d])
  {
    var adds' := adds[a := d];
    forall b | b in adds && Active(adds[b].phase) ensures adds[b].key != d.key {
      assert RecordedAdd(m, b, adds[b]);
    }
    forall x, y ensures !Rivals(adds', x, y) {
      assert !Rivals(adds, x, y);
    }
    if d.key in base {
      PlannedIsServed(m.backends, PlanNow(base, m.dynamic), d.key);
    }
    forall b | b in adds' ensures RecordedAdd(Mark(m, d.key), b, adds'[b]) {
      assert b in adds ==> RecordedAdd(m, b, adds[b]);
    }
    forall x | x in m.reserving ensures exists b :: Holds(adds', b, x, m.reserving[x]) {
      var b :| Holds(adds, b, x, m.reserving[x]);
      assert Holds(adds', b, x, m.reserving[x]);
    }
  }

  lemma AdmitEntries(m: Maps, adds: Adds, a: nat, d: Add)
    requires Entries(m, adds) && a !in adds
    ensures Entries(Mark(m, d.key), adds[a := d])
  {
  }

  lemma CoreAdmit(c: Config, s: State, a: nat, name: string)
    requires Core(c, s) && Enabled(c, true, s, Admit(a, name))
    ensures Core(c, Apply(c, s, Admit(a, name)))
  {
    var d := Add(LookupName(name), name, "", None, Admitted);
    AdmitEntries(s.maps, s.adds, a, d);
    AdmitBooks(c.base, s.maps, s.adds, a, d);
  }

  // ----- reservation -----

  lemma AdmittedKeyIsNowhere(base: Plan, m: Maps, adds: Adds, a: nat)
    requires Books(base, m, adds) && Entries(m, adds) && IndexOk(base, m) && KeysNamed(adds)
    requires a in adds && adds[a].phase == Admitted
    ensures adds[a].key !in m.backends && adds[a].key !in m.pending
  {
    var key := adds[a].key;
    LookupNameIdempotent(adds[a].name);
    assert Get(m.backends, key) == Spell(PlanNow(base, m.dynamic), key);
    assert key in m.pending ==> Rivals(adds, a, m.pending[key].id);
  }

  lemma AdmittedHoldsNothing(m: Maps, adds: Adds, a: nat, x: string)
    requires OneAddPerKey(adds) && NoStaleReservation(m, adds)
    requires a in adds && adds[a].phase == Admitted && x in m.reserving
    ensures m.reserving[x] != adds[a].key
  {
    var b :| Holds(adds, b, x, m.reserving[x]);
    assert !Rivals(adds, a, b);
  }

  /** Under H an accepted address has no owner at all: the owner `addressOwnerLocked`
      reports is never the key the address is being reserved for. */
  lemma FreshAddress(base: Plan, m: Maps, adds: Adds, a: nat, ans: Answer)
    requires Books(base, m, adds) && Entries(m, adds) && IndexOk(base, m) && KeysNamed(adds)
    requires a in adds && adds[a].phase == Admitted && Accepts(m, adds[a].key, ans)
    ensures ans.addr !in m.reserving && !Serves(m.backends, ans.addr)
    ensures Owners(m, ans.addr) == {}
  {
    AdmittedKeyIsNowhere(base, m, adds, a);
    if ans.addr in m.reserving {
      AdmittedHoldsNothing(m, adds, a, ans.addr);
    }
    assert adds[a].key !in Owners(m, ans.addr);
    NotOwnedNotServed(m, ans.addr);
  }

  lemma NotOwnedNotServed(m: Maps, addr: string)
    requires Owners(m, addr) == {}
    ensures addr !in m.reserving && !Serves(m.backends, addr)
  {
    assert forall n :: n in m.backends && m.backends[n] == addr ==> n in PublishedAt(m.backends, addr);
  }

  lemma ReserveBooks(base: Plan, m: Maps, adds: Adds, a: nat, d: Add)
    requires Books(base, m, adds) && a in adds && adds[a].phase == Admitted
    requires d.phase == Reserved && d.key == adds[a].key
    requires d.addr !in m.reserving && !Serves(m.backends, d.addr)
    ensures Books(base, Reserve(m, d.addr, d.key), adds[a := d])
  {
    var m', adds' := Reserve(m, d.addr, d.key), adds[a := d];
    NarrowKeepsOne(adds, a, d);
    forall b | b in adds' ensures RecordedAdd(m', b, adds'[b]) {
      assert RecordedAdd(m, b, adds[b]);
    }
    forall x | x in m'.reserving ensures exists b :: Holds(adds', b, x, m'.reserving[x]) {
      if x == d.addr {
        assert Holds(adds', a, x, m'.reserving[x]);
      } else {
        var b :| Holds(adds, b, x, m.reserving[x]);
        assert Holds(adds', b, x, m'.reserving[x]);
      }
    }
  }

  lemma ReserveEntries(m: Maps, adds: Adds, a: nat, d: Add)
    requires Entries(m, adds) && a in adds && adds[a].phase == Admitted
    ensures Entries(Reserve(m, d.addr, d.key), adds[a := d])
  {
  }

  lemma CoreAccept(c: Config, s: State, t: State, a: nat, ans: Answer)
    requires Core(c, s) && At(s, a, Admitted) && Accepts(s.maps, s.adds[a].key, ans)
    requires t.run == s.run && t.healthy == s.healthy && a in t.adds
    requires t.maps == Reserve(s.maps, ans.addr, s.adds[a].key)
    requires t.adds == s.adds[a := s.adds[a].(addr := ans.addr, token := t.adds[a].token, phase := Reserved)]
    ensures Core(c, t)
  {
    UpdateKeepsNames(s.adds, a, t.adds[a]);
    ReserveEntries(s.maps, s.adds, a, t.adds[a]);
    if !s.run.Torn? {
      FreshAddress(c.base, s.maps, s.adds, a, ans);
      ReserveBooks(c.base, s.maps, s.adds, a, t.adds[a]);
    }
  }

  lemma CoreReserve(c: Config, s: State, a: nat, answers: seq<Answer>)
    requires Core(c, s) && At(s, a, Admitted) && answers != []
    ensures Core(c, ReserveEffect(c, s, a, answers))
  {
    hide Core;
    var t := ReserveEffect(c, s, a, answers);
    var last := answers[|answers| - 1];
    if Accepts(s.maps, s.adds[a].key, last) {
      CoreAccept(c, s, t, a, last);
    } else {
      CorePhase(c, s, t, a, DropMark(Held));
    }
  }

  // ----- publication -----

  lemma HolderIsAlone(base: Plan, m: Maps, adds: Adds, a: nat, b: nat)
    requires Books(base, m, adds) && a in adds && b in adds && a != b
    requires HoldsAddress(adds[a].phase) && HoldsAddress(adds[b].phase)
    requires Active(adds[a].phase) && Active(adds[b].phase)
    ensures adds[a].addr != adds[b].addr
  {
    assert RecordedAdd(m, a, adds[a]) && RecordedAdd(m, b, adds[b]);
    assert !Rivals(adds, a, b);
  }

  lemma HolderIsActive(p: Phase)
    requires HoldsAddress(p)
    ensures Active(p)
  {
  }

  lemma PublishBooks(base: Plan, m: Maps, adds: Adds, a: nat)
    requires Books(base, m, adds) && a in adds && adds[a].phase == Owned
    ensures Books(base, Registry.Publish(m, adds[a].key, ProcOf(a, adds[a])), adds[a := adds[a].(phase := Published)])
  {
    var d := adds[a].(phase := Published);
    var m' := Registry.Publish(m, d.key, ProcOf(a, adds[a]));
    assert RecordedAdd(m, a, adds[a]);
    NarrowKeepsOne(adds, a, d);
    OthersRecorded(m, m', adds, a, d);
    ReservationsStillHeld(m, m', adds, a, d);
    var adds' := adds[a := d];
    forall b | b in adds' && Active(adds'[b].phase) ensures adds'[b].key !in m'.dynamic && adds'[b].key !in base {
      assert !Rivals(adds, a, b);
    }
    forall b | b in adds' && HoldsAddress(adds'[b].phase) ensures !Serves(m'.backends, adds'[b].addr) {
      HolderIsActive(adds[b].phase);
      HolderIsAlone(base, m, adds, a, b);
      assert !Serves(m.backends, adds[b].addr);
    }
  }

  lemma PublishEntries(m: Maps, adds: Adds, a: nat)
    requires Entries(m, adds) && a in adds && adds[a].phase == Owned
    requires Get(m.pending, adds[a].key) == Some(ProcOf(a, adds[a]))
    ensures Entries(Registry.Publish(m, adds[a].key, ProcOf(a, adds[a])), adds[a := adds[a].(phase := Published)])
  {
  }

  lemma PlanPublish(base: Plan, dynamic: map<string, Proc>, key: string, proc: Proc)
    requires key !in base
    ensures PlanNow(base, dynamic[key := proc]) == PlanNow(base, dynamic)[key := Entry(proc.name, proc.addr)]
  {
  }

  lemma PlanUnpublish(base: Plan, dynamic: map<string, Proc>, key: string)
    requires key !in base && key in dynamic
    ensures PlanNow(base, dynamic - {key}) == PlanNow(base, dynamic) - {key}
    ensures PlanNow(base, dynamic)[key] == Entry(dynamic[key].name, dynamic[key].addr)
  {
  }

  lemma PublishDistinct(base: Plan, m: Maps, key: string, proc: Proc)
    requires IndexOk(base, m) && key !in base && !Serves(m.backends, proc.addr)
    ensures PublishedDistinct(base, m.dynamic[key := proc])
  {
    var plan := PlanNow(base, m.dynamic);
    forall k | k in m.dynamic ensures m.dynamic[k].addr != proc.addr {
      PlannedIsServed(m.backends, plan, k);
    }
    forall k | k in base ensures base[k].addr != proc.addr {
      assert k in plan && plan[k] == base[k] by {
        assert k !in m.dynamic;
      }
      PlannedIsServed(m.backends, plan, k);
    }
  }

  lemma PublishIndex(base: Plan, m: Maps, key: string, proc: Proc)
    requires IndexOk(base, m) && key == LookupName(proc.name)
    requires key !in m.dynamic && key !in base && !Serves(m.backends, proc.addr)
    ensures IndexOk(base, Registry.Publish(m, key, proc))
  {
    PlanPublish(base, m.dynamic, key, proc);
    StoreAgrees(m.backends, PlanNow(base, m.dynamic), proc.name, proc.addr);
    PublishDistinct(base, m, key, proc);
  }

  lemma CorePublish(c: Config, s: State, t: State, a: nat)
    requires Core(c, s) && At(s, a, Owned) && s.healthy
    requires Get(s.maps.pending, s.adds[a].key) == Some(ProcOf(a, s.adds[a]))
    requires t.run == s.run && t.healthy == s.healthy
    requires t.maps == Registry.Publish(s.maps, s.adds[a].key, ProcOf(a, s.adds[a]))
    requires t.adds == s.adds[a := s.adds[a].(phase := Published)]
    ensures Core(c, t)
  {
    UpdateKeepsNames(s.adds, a, s.adds[a].(phase := Published));
    PublishEntries(s.maps, s.adds, a);
    PublishBooks(c.base, s.maps, s.adds, a);
    assert !Serves(s.maps.backends, s.adds[a].addr);
    PublishIndex(c.base, s.maps, s.adds[a].key, ProcOf(a, s.adds[a]));
  }

  // ----- removal, late exit, teardown -----

  lemma UnpublishIndex(base: Plan, m: Maps, key: string)
    requires IndexOk(base, m) && key in m.dynamic
    ensures IndexOk(base, Unpublish(m, key))
  {
    PlanUnpublish(base, m.dynamic, key);
    DeleteTwoAgrees(m.backends, PlanNow(base, m.dynamic), key);
  }

  lemma UnpublishBooks(base: Plan, m: Maps, adds: Adds, key: string)
    requires Books(base, m, adds) && key in m.dynamic
    ensures Books(base, Unpublish(m, key), adds)
  {
    forall a | a in adds ensures RecordedAdd(Unpublish(m, key), a, adds[a]) {
      assert RecordedAdd(m, a, adds[a]);
    }
    forall a | a in adds && HoldsAddress(adds[a].phase) ensures !Serves(Unpublish(m, key).backends, adds[a].addr) {
      assert !Serves(m.backends, adds[a].addr);
    }
  }

  lemma UnpublishEntries(m: Maps, adds: Adds, key: string)
    requires Entries(m, adds) && key in m.dynamic
    ensures Entries(Unpublish(m, key), adds)
  {
  }

  lemma CoreUnpublish(c: Config, s: State, t: State, key: string)
    requires Core(c, s) && key in s.maps.dynamic && t.maps == Unpublish(s.maps, key)
    requires t.run == s.run && t.healthy == s.healthy && t.adds == s.adds
    ensures Core(c, t)
  {
    UnpublishIndex(c.base, s.maps, key);
    UnpublishEntries(s.maps, s.adds, key);
    if !s.run.Torn? {
      UnpublishBooks(c.base, s.maps, s.adds, key);
    }
  }

  lemma CoreWatch(c: Config, s: State, a: nat)
    requires Core(c, s) && At(s, a, Published)
    ensures Core(c, WatchEffect(s, a))
  {
    var d := s.adds[a];
    assert Get(s.maps.pending, d.key) != Some(ProcOf(a, d));
    if Get(s.maps.dynamic, d.key) == Some(ProcOf(a, d)) {
      CoreUnpublish(c, s, WatchEffect(s, a), d.key);
    } else {
      CoreSame(c, s, WatchEffect(s, a));
    }
  }

  /** The spellings the teardown deletes are those whose lookup name is published. */
  lemma TakenSpelling(base: Plan, m: Maps, n: string)
    requires IndexOk(base, m) && n in m.backends
    ensures DynamicSpelling(m.dynamic, n) <==> LookupName(n) in m.dynamic
  {
    var plan, k := PlanNow(base, m.dynamic), LookupName(n);
    assert Get(m.backends, n) == Spell(plan, n);
    if k in m.dynamic {
      assert plan[k].name == m.dynamic[k].name;
      assert LookupName(plan[k].name) == k;
    }
    if DynamicSpelling(m.dynamic, n) {
      var l :| l in m.dynamic && (n == m.dynamic[l].name || n == LookupName(m.dynamic[l].name));
      assert LookupName(plan[l].name) == l;
      LookupNameIdempotent(m.dynamic[l].name);
    }
  }

  lemma TakeAllAgrees(base: Plan, m: Maps, n: string)
    requires IndexOk(base, m)
    ensures Get(TakeAll(m).backends, n) == Spell(base, n)
  {
    assert Get(m.backends, n) == Spell(PlanNow(base, m.dynamic), n);
    if n in m.backends {
      TakenSpelling(base, m, n);
    }
  }

  lemma TakeAllIndex(base: Plan, m: Maps)
    requires IndexOk(base, m)
    ensures IndexOk(base, TakeAll(m))
  {
    assert PlanNow(base, map[]) == base;
    forall n ensures Get(TakeAll(m).backends, n) == Spell(base, n) {
      TakeAllAgrees(base, m, n);
    }
    forall k | k in base ensures LookupName(base[k].name) == k {
      assert PlanNow(base, m.dynamic)[k] == base[k];
    }
  }

  lemma CoreTeardown(c: Config, s: State)
    requires Core(c, s) && Enabled(c, true, s, Teardown)
    ensures Core(c, Apply(c, s, Teardown))
  {
    TakeAllIndex(c.base, s.maps);
  }

  lemma CoreLaunch(c: Config, s: State, a: nat, spawned: bool)
    requires Core(c, s) && At(s, a, Reserved)
    ensures Core(c, LaunchEffect(s, a, spawned))
  {
    hide Core;
    var t := LaunchEffect(s, a, spawned);
    if !s.healthy {
      CoreUnmark(c, s, t, a, DropReservation(Gone));
    } else if !spawned {
      CoreUnmark(c, s, t, a, DropReservation(Twice));
    } else {
      CoreGoPending(c, s, t, a);
    }
  }

  lemma CoreTryPublish(c: Config, s: State, a: nat)
    requires Core(c, s) && At(s, a, Owned)
    ensures Core(c, PublishEffect(s, a))
  {
    var t := PublishEffect(s, a);
    if !s.healthy {
      CoreDropPending(c, s, t, a, StopUnpublished);
    } else {
      assert RecordedAdd(s.maps, a, s.adds[a]);
      CorePublish(c, s, t, a);
    }
  }

  // ----- one lemma for each kind of step -----

  lemma CoreFailConfig(c: Config, s: State, a: nat)
    requires Core(c, s) && Enabled(c, true, s, FailConfig(a))
    ensures Core(c, Apply(c, s, FailConfig(a)))
  {
    hide Core;
    var t := Apply(c, s, FailConfig(a));
    CorePhase(c, s, t, a, t.adds[a].phase);
  }

  lemma CoreEndWait(c: Config, s: State, a: nat, ready: bool)
    requires Core(c, s) && Enabled(c, true, s, EndWait(a, ready))
    ensures Core(c, Apply(c, s, EndWait(a, ready)))
  {
    hide Core;
    var t := Apply(c, s, EndWait(a, ready));
    CorePhase(c, s, t, a, t.adds[a].phase);
  }

  lemma CoreCheckOwner(c: Config, s: State, a: nat, known: bool)
    requires Core(c, s) && Enabled(c, true, s, CheckOwner(a, known))
    ensures Core(c, Apply(c, s, CheckOwner(a, known)))
  {
    hide Core;
    var t := Apply(c, s, CheckOwner(a, known));
    CorePhase(c, s, t, a, t.adds[a].phase);
  }

  lemma CoreFinishOwnStop(c: Config, s: State, a: nat, signalled: bool)
    requires Core(c, s) && Enabled(c, true, s, FinishOwnStop(a, signalled))
    ensures Core(c, Apply(c, s, FinishOwnStop(a, signalled)))
  {
    hide Core;
    var t := Apply(c, s, FinishOwnStop(a, signalled));
    CorePhase(c, s, t, a, t.adds[a].phase);
  }

  lemma CoreReleasing(c: Config, s: State, a: nat)
    requires Core(c, s) && Enabled(c, true, s, Releasing(a))
    ensures Core(c, Apply(c, s, Releasing(a)))
  {
    hide Core;
    var t := Apply(c, s, Releasing(a));
    CorePhase(c, s, t, a, t.adds[a].phase);
  }

  lemma CoreFlag(c: Config, s: State, step: Step)
    requires Core(c, s) && RuntimeFlag(step) && Enabled(c, true, s, step)
    ensures Core(c, Apply(c, s, step))
  {
    assert s.healthy == s.run.Up?;
    hide Core;
    CoreSame(c, s, Apply(c, s, step));
  }

  lemma CoreOutside(c: Config, s: State, step: Step)
    requires Core(c, s) && Outside(step) && Enabled(c, true, s, step)
    ensures Core(c, Apply(c, s, step))
  {
    assert s.healthy == s.run.Up?;
    hide Core;
    CoreSame(c, s, Apply(c, s, step));
  }

  lemma CoreFinishStop(c: Config, s: State, a: nat, signalled: bool)
    requires Core(c, s) && Enabled(c, true, s, FinishStop(a, signalled))
    ensures Core(c, Apply(c, s, FinishStop(a, signalled)))
  {
    assert s.healthy == s.run.Up?;
    hide Core;
    CoreSame(c, s, Apply(c, s, FinishStop(a, signalled)));
  }

  lemma CoreReserveStep(c: Config, s: State, a: nat, answers: seq<Answer>)
    requires Core(c, s) && Enabled(c, true, s, ReserveAddress(a, answers))
    ensures Core(c, Apply(c, s, ReserveAddress(a, answers)))
  {
    hide Core;
    CoreReserve(c, s, a, answers);
  }

  lemma CoreLaunchStep(c: Config, s: State, a: nat, spawned: bool)
    requires Core(c, s) && Enabled(c, true, s, Launch(a, spawned))
    ensures Core(c, Apply(c, s, Launch(a, spawned)))
  {
    hide Core;
    CoreLaunch(c, s, a, spawned);
  }

  lemma CorePublishStep(c: Config, s: State, a: nat)
    requires Core(c, s) && Enabled(c, true, s, TryPublish(a))
    ensures Core(c, Apply(c, s, TryPublish(a)))
  {
    hide Core;
    CoreTryPublish(c, s, a);
  }

  lemma CoreLeavePendingStep(c: Config, s: State, a: nat)
    requires Core(c, s) && Enabled(c, true, s, LeavePendingMap(a))
    ensures Core(c, Apply(c, s, LeavePendingMap(a)))
  {
    hide Core;
    CoreDropPending(c, s, Apply(c, s, LeavePendingMap(a)), a, DropReservation(Gone));
  }

  lemma CoreUnreservingStep(c: Config, s: State, a: nat)
    requires Core(c, s) && Enabled(c, true, s, Unreserving(a))
    ensures Core(c, Apply(c, s, Unreserving(a)))
  {
    hide Core;
    CoreUnreserve(c, s, Apply(c, s, Unreserving(a)), a, ReturnAddress(s.adds[a].phase.mark));
  }

  lemma CoreUnmarkingStep(c: Config, s: State, a: nat)
    requires Core(c, s) && Enabled(c, true, s, Unmarking(a))
    ensures Core(c, Apply(c, s, Unmarking(a)))
  {
    hide Core;
    CoreUnmark(c, s, Apply(c, s, Unmarking(a)), a, Failed);
  }

  lemma CoreRemoveStep(c: Config, s: State, spelling: string)
    requires Core(c, s) && Enabled(c, true, s, Remove(spelling))
    ensures Core(c, Apply(c, s, Remove(spelling)))
  {
    hide Core;
    CoreUnpublish(c, s, Apply(c, s, Remove(spelling)), LookupName(spelling));
  }

  lemma CoreWatchStep(c: Config, s: State, a: nat)
    requires Core(c, s) && Enabled(c, true, s, WatchExit(a))
    ensures Core(c, Apply(c, s, WatchExit(a)))
  {
    hide Core;
    CoreWatch(c, s, a);
  }

  /** Every step that respects H keeps the core invariant. */
  lemma CoreStep(c: Config, s: State, step: Step)
    requires Core(c, s) && Enabled(c, true, s, step)
    ensures Core(c, Apply(c, s, step))
  {
    hide Core, Enabled, Apply;
    match step
    case Teardown => CoreTeardown(c, s);
    case Admit(a, name) => CoreAdmit(c, s, a, name);
    case ReserveAddress(a, answers) => CoreReserveStep(c, s, a, answers);
    case FailConfig(a) => CoreFailConfig(c, s, a);
    case Launch(a, spawned) => CoreLaunchStep(c, s, a, spawned);
    case EndWait(a, ready) => CoreEndWait(c, s, a, ready);
    case CheckOwner(a, known) => CoreCheckOwner(c, s, a, known);
    case TryPublish(a) => CorePublishStep(c, s, a);
    case FinishOwnStop(a, signalled) => CoreFinishOwnStop(c, s, a, signalled);
    case LeavePendingMap(a) => CoreLeavePendingStep(c, s, a);
    case Unreserving(a) => CoreUnreservingStep(c, s, a);
    case Releasing(a) => CoreReleasing(c, s, a);
    case Unmarking(a) => CoreUnmarkingStep(c, s, a);
    case Remove(spelling) => CoreRemoveStep(c, s, spelling);
    case WatchExit(a) => CoreWatchStep(c, s, a);
    case FinishStop(a, signalled) => CoreFinishStop(c, s, a, signalled);
    case _ =>
      if RuntimeFlag(step) {
        CoreFlag(c, s, step);
      } else {
        CoreOutside(c, s, step);
      }
  }

  lemma CoreInit(c: Config)
    requires ValidConfig(c)
    ensures Core(c, Init(c))
  {
    assert PlanNow(c.base, map[]) == c.base;
  }
}
