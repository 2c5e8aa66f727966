/** Hypothesis H is exactly what the code needs. A failed add gives up its admission mark
    before it gives up its reservation; admitting the same key again inside that window is
    the one way two adds come to own a key or an address together. */
module ProtocolWindow {
  import opened Names
  import opened Aliases
  import opened Registry
  import opened Protocol
  import opened ProtocolInv
  import opened ProtocolChildren
  import opened ProtocolTheorems

  /** Admitted and not given up: the add still goes for the key, or still owns its mark. */
  predicate InProgress(p: Phase) {
    Marked(p) || InPending(p)
  }

  /** The add has an address its child is told to bind, or already was. */
  predicate UsesAddress(p: Phase) {
    p.Reserved? || InPending(p)
  }

  predicate SameKey(adds: Adds, a: nat, b: nat) {
    && a in adds && b in adds && a != b && adds[a].key == adds[b].key
    && InProgress(adds[a].phase) && InProgress(adds[b].phase)
  }

  predicate SameAddress(adds: Adds, a: nat, b: nat) {
    && a in adds && b in adds && a != b && adds[a].addr == adds[b].addr
    && UsesAddress(adds[a].phase) && UsesAddress(adds[b].phase)
  }

  /** The damage, and nothing else: before the teardown two adds of one key are in progress
      together, or two adds use one address. An add that is only cleaning up is neither. */
  ghost predicate Sound(s: State) {
    !s.run.Torn? ==> forall a, b :: !SameKey(s.adds, a, b) && !SameAddress(s.adds, a, b)
  }

  /** Some continuation, itself respecting H, reaches an unsound state. */
  ghost predicate Breaks(c: Config, s: State) {
    exists steps :: Legal(c, true, s, steps) && !Sound(After(c, true, s, steps))
  }

  lemma BreaksNow(c: Config, s: State)
    requires !Sound(s)
    ensures Breaks(c, s)
  {
    assert Legal(c, true, s, []) && After(c, true, s, []) == s;
  }

  lemma BreaksLater(c: Config, s: State, step: Step)
    requires Enabled(c, true, s, step) && Enabled(c, false, s, step) && Breaks(c, Apply(c, s, step))
    ensures Breaks(c, s)
  {
    hide Enabled, Apply, Sound;
    var t := Apply(c, s, step);
    var rest :| Legal(c, true, t, rest) && !Sound(After(c, true, t, rest));
    var steps := [step] + rest;
    assert steps[0] == step && steps[1..] == rest;
    assert Legal(c, true, s, steps);
    assert After(c, true, s, steps) == After(c, true, t, rest);
  }

  lemma CoreIsSound(c: Config, s: State)
    requires Core(c, s)
    ensures Sound(s)
  {
    if !s.run.Torn? {
      forall a, b ensures !SameKey(s.adds, a, b) && !SameAddress(s.adds, a, b) {
        assert !Rivals(s.adds, a, b);
        if SameAddress(s.adds, a, b) {
          HolderIsAlone(c.base, s.maps, s.adds, a, b);
        }
      }
    }
  }

  lemma UnderHNeverBreaks(c: Config, s: State)
    requires UnderH(c, s)
    ensures !Breaks(c, s)
  {
    forall steps | Legal(c, true, s, steps) ensures Sound(After(c, true, s, steps)) {
      UnderHKept(c, s, steps);
      CoreIsSound(c, After(c, true, s, steps));
    }
  }

  // ----- names and ids nobody uses -----

  ghost function Longest(names: set<string>): (n: nat)
    ensures forall x :: x in names ==> |x| <= n
  {
    if names == {} then 0
    else
      var x :| x in names;
      var rest := Longest(names - {x});
      assert forall y :: y in names ==> y == x || y in names - {x};
      if |x| > rest then |x| else rest
  }

  lemma FreshName(names: set<string>) returns (name: string)
    ensures name !in names && LookupName(name) == name
  {
    name := seq(Longest(names) + 1, i => 'a');
    assert forall i :: 0 <= i < |name| ==> name[i] == 'a';
    assert Trimmed(name);
    TrimSpaceFixesTrimmed(name);
    assert Lower(name) == name;
  }

  ghost function Largest(ids: set<nat>): (n: nat)
    ensures forall x :: x in ids ==> x <= n
  {
    if ids == {} then 0
    else
      var x :| x in ids;
      var rest := Largest(ids - {x});
      assert forall y :: y in ids ==> y == x || y in ids - {x};
      if x > rest then x else rest
  }

  lemma FreshId(ids: set<nat>) returns (id: nat)
    ensures id !in ids
  {
    id := Largest(ids) + 1;
  }

  // ----- the reservation can be lost -----

  lemma SharedAddress(c: Config, s: State, b: nat, d: nat, x: string)
    requires !s.run.Torn? && b in s.adds && UsesAddress(s.adds[b].phase) && s.adds[b].addr == x
    requires At(s, d, Admitted) && d != b && Owners(s.maps, x) == {}
    ensures Breaks(c, s)
  {
    var step := ReserveAddress(d, [Offer(x, None)]);
    assert Accepts(s.maps, s.adds[d].key, Offer(x, None));
    assert Enabled(c, true, s, step) && Enabled(c, false, s, step);
    var t := Apply(c, s, step);
    assert t.adds[d].addr == x && t.adds[d].phase == Reserved && t.adds[b] == s.adds[b];
    assert SameAddress(t.adds, b, d);
    hide Enabled, Apply, Owners;
    BreaksNow(c, t);
    BreaksLater(c, s, step);
  }

  /** A name under which nothing at all is known. */
  predicate Unheard(s: State, name: string) {
    && Unclaimed(s.maps, LookupName(name))
    && forall a :: a in s.adds ==> s.adds[a].key != LookupName(name)
  }

  lemma ThirdAdd(c: Config, s: State, b: nat, d: nat, x: string, name: string)
    requires s.run.Up? && s.healthy && b in s.adds && UsesAddress(s.adds[b].phase) && s.adds[b].addr == x
    requires d !in s.adds && Unheard(s, name) && Owners(s.maps, x) == {}
    ensures Breaks(c, s)
  {
    var step := Admit(d, name);
    assert Enabled(c, true, s, step) && Enabled(c, false, s, step);
    var t := Apply(c, s, step);
    assert Owners(t.maps, x) == Owners(s.maps, x);
    assert At(t, d, Admitted) && t.adds[b] == s.adds[b] && b != d && t.run == s.run;
    hide Enabled, Apply, Owners;
    SharedAddress(c, t, b, d, x);
    BreaksLater(c, s, step);
  }

  lemma DroppedByTheOther(c: Config, s: State, a: nat, b: nat, d: nat, x: string, name: string)
    requires s.run.Up? && s.healthy && a in s.adds && b in s.adds && a != b
    requires s.adds[a].phase.DropReservation? && s.adds[a].addr == x
    requires UsesAddress(s.adds[b].phase) && s.adds[b].addr == x
    requires Owners(s.maps, x) == {s.adds[a].key} && Get(s.maps.reserving, x) == Some(s.adds[a].key)
    requires !Serves(s.maps.backends, x) && NoPendingAt(s.maps, x)
    requires d !in s.adds && Unheard(s, name)
    ensures Breaks(c, s)
  {
    var step := Unreserving(a);
    assert Enabled(c, true, s, step) && Enabled(c, false, s, step);
    var t := Apply(c, s, step);
    assert x !in t.maps.reserving;
    NoOwners(t.maps, x);
    assert Unheard(t, name);
    assert t.adds[b] == s.adds[b] && d !in t.adds && t.run == s.run && t.healthy;
    hide Enabled, Apply, Owners, Unheard, Serves;
    ThirdAdd(c, t, b, d, x, name);
    BreaksLater(c, s, step);
  }

  predicate NoPendingAt(m: Maps, x: string) {
    forall k :: k in m.pending ==> m.pending[k].addr != x
  }

  lemma NoOwners(m: Maps, x: string)
    requires !Serves(m.backends, x) && NoPendingAt(m, x)
    ensures Owners(m, x) == if x in m.reserving then {m.reserving[x]} else {}
  {
    assert PublishedAt(m.backends, x) == {} && PendingAt(m.pending, x) == {};
  }

  lemma StaleReservation(c: Config, s: State, a: nat, b: nat, d: nat, name: string)
    requires s.run.Up? && s.healthy && a in s.adds && At(s, b, Admitted) && a != b
    requires s.adds[a].phase.DropReservation? && s.adds[b].key == s.adds[a].key
    requires Get(s.maps.reserving, s.adds[a].addr) == Some(s.adds[a].key)
    requires !Serves(s.maps.backends, s.adds[a].addr) && NoPendingAt(s.maps, s.adds[a].addr)
    requires d !in s.adds && Unheard(s, name)
    ensures Breaks(c, s)
  {
    var x, key := s.adds[a].addr, s.adds[a].key;
    var step := ReserveAddress(b, [Offer(x, Some(key))]);
    NoOwners(s.maps, x);
    assert Accepts(s.maps, key, Offer(x, Some(key)));
    assert Enabled(c, true, s, step) && Enabled(c, false, s, step);
    var t := Apply(c, s, step);
    assert t.maps == s.maps by {
      assert s.maps.reserving[x := key] == s.maps.reserving;
    }
    assert t.adds[a] == s.adds[a] && t.adds[b].addr == x && t.adds[b].phase == Reserved && t.adds[b].key == key;
    assert t.adds.Keys == s.adds.Keys && t.run == s.run && t.healthy;
    assert Unheard(t, name);
    hide Enabled, Apply, Owners, Unheard, Serves, NoPendingAt;
    DroppedByTheOther(c, t, a, b, d, x, name);
    BreaksLater(c, s, step);
  }

  // ----- the admission mark can be lost -----

  /** Everything but the mark says the key of `b` is free. */
  predicate OnlyMarked(s: State, b: nat) {
    && At(s, b, Admitted)
    && s.adds[b].key == LookupName(s.adds[b].name)
    && s.adds[b].key !in s.maps.backends && s.adds[b].key !in s.maps.dynamic && s.adds[b].key !in s.maps.pending
  }

  lemma SecondAdmission(c: Config, s: State, b: nat, d: nat)
    requires s.run.Up? && s.healthy && OnlyMarked(s, b) && s.adds[b].key !in s.maps.adding
    requires Quiet(s.adds, s.adds[b].key) && d !in s.adds
    ensures Breaks(c, s)
  {
    var step := Admit(d, s.adds[b].name);
    assert Enabled(c, true, s, step) && Enabled(c, false, s, step);
    var t := Apply(c, s, step);
    assert SameKey(t.adds, b, d);
    hide Enabled, Apply;
    BreaksNow(c, t);
    BreaksLater(c, s, step);
  }

  predicate QuietBut(s: State, a: nat, key: string) {
    forall e :: e in s.adds && e != a && s.adds[e].key == key ==> !CleaningUp(s.adds[e].phase)
  }

  lemma StaleMark(c: Config, s: State, a: nat, b: nat, d: nat)
    requires s.run.Up? && s.healthy && OnlyMarked(s, b) && a in s.adds && a != b && d !in s.adds
    requires s.adds[a].phase.DropMark? && s.adds[a].key == s.adds[b].key && QuietBut(s, a, s.adds[b].key)
    ensures Breaks(c, s)
  {
    var step := Unmarking(a);
    assert Enabled(c, true, s, step) && Enabled(c, false, s, step);
    var t := Apply(c, s, step);
    assert OnlyMarked(t, b) && t.adds[b] == s.adds[b] && t.adds[b].key !in t.maps.adding;
    assert Quiet(t.adds, t.adds[b].key);
    assert t.run == s.run && t.healthy && d !in t.adds;
    hide Enabled, Apply, OnlyMarked, Quiet, QuietBut;
    SecondAdmission(c, t, b, d);
    BreaksLater(c, s, step);
  }

  lemma StaleMarkLater(c: Config, s: State, a: nat, b: nat, d: nat)
    requires s.run.Up? && s.healthy && OnlyMarked(s, b) && a in s.adds && a != b && d !in s.adds
    requires s.adds[a].phase == ReturnAddress(Twice) && s.adds[a].key == s.adds[b].key && QuietBut(s, a, s.adds[b].key)
    ensures Breaks(c, s)
  {
    var step := Releasing(a);
    assert Enabled(c, true, s, step) && Enabled(c, false, s, step);
    var t := Apply(c, s, step);
    assert OnlyMarked(t, b) && t.adds[b] == s.adds[b] && t.adds[a].phase == DropMark(Twice);
    assert QuietBut(t, a, t.adds[b].key) && t.adds[a].key == s.adds[a].key;
    assert t.run == s.run && t.healthy && d !in t.adds;
    hide Enabled, Apply, OnlyMarked, QuietBut;
    StaleMark(c, t, a, b, d);
    BreaksLater(c, s, step);
  }

  // ----- the theorem -----

  lemma StopFirst(c: Config, s: State, a: nat, b: nat, d: nat, name: string)
    requires s.run.Up? && s.healthy && At(s, a, StopUnpublished) && At(s, b, Admitted) && a != b
    requires s.adds[b].key == s.adds[a].key
    requires Get(s.maps.reserving, s.adds[a].addr) == Some(s.adds[a].key)
    requires !Serves(s.maps.backends, s.adds[a].addr) && NoPendingAt(s.maps, s.adds[a].addr)
    requires d !in s.adds && Unheard(s, name)
    ensures Breaks(c, s)
  {
    var step := FinishOwnStop(a, false);
    assert Enabled(c, true, s, step) && Enabled(c, false, s, step);
    var t := Apply(c, s, step);
    assert t.maps == s.maps && t.adds[b] == s.adds[b] && t.adds[a] == s.adds[a].(phase := DropReservation(Gone));
    assert t.adds.Keys == s.adds.Keys && t.run == s.run && t.healthy;
    assert Unheard(t, name);
    hide Enabled, Apply, Unheard, Serves, NoPendingAt;
    StaleReservation(c, t, a, b, d, name);
    BreaksLater(c, s, step);
  }

  /** What Core says about an add whose key is being admitted again. */
  lemma CleaningAddFacts(c: Config, s: State, a: nat)
    requires Core(c, s) && s.healthy && a in s.adds && CleaningUp(s.adds[a].phase)
    ensures HoldsAddress(s.adds[a].phase) ==>
              && Get(s.maps.reserving, s.adds[a].addr) == Some(s.adds[a].key)
              && !Serves(s.maps.backends, s.adds[a].addr)
              && NoPendingAt(s.maps, s.adds[a].addr)
    ensures QuietBut(s, a, s.adds[a].key)
  {
    assert RecordedAdd(s.maps, a, s.adds[a]);
    if HoldsAddress(s.adds[a].phase) {
      forall k | k in s.maps.pending ensures s.maps.pending[k].addr != s.adds[a].addr {
        HolderIsAlone(c.base, s.maps, s.adds, a, s.maps.pending[k].id);
      }
    }
    forall e | e in s.adds && e != a && s.adds[e].key == s.adds[a].key ensures !CleaningUp(s.adds[e].phase) {
      assert !Rivals(s.adds, a, e);
    }
  }

  ghost function Heard(s: State): set<string> {
    s.maps.backends.Keys + s.maps.dynamic.Keys + s.maps.adding + s.maps.pending.Keys
    + (set a | a in s.adds :: s.adds[a].key)
  }

  lemma UnheardName(s: State) returns (name: string)
    ensures Unheard(s, name)
  {
    name := FreshName(Heard(s));
    forall a | a in s.adds ensures s.adds[a].key != LookupName(name) {
      assert s.adds[a].key in Heard(s);
    }
  }

  lemma WindowBreaks(c: Config, s: State, b: nat, name: string, a: nat)
    requires Core(c, s) && Enabled(c, false, s, Admit(b, name))
    requires a in s.adds && s.adds[a].key == LookupName(name) && CleaningUp(s.adds[a].phase)
    ensures Breaks(c, Apply(c, s, Admit(b, name)))
  {
    CleaningAddFacts(c, s, a);
    LookupNameIdempotent(name);
    assert s.run.Up?;
    hide Core;
    var t := Apply(c, s, Admit(b, name));
    assert t.adds[a] == s.adds[a] && a != b && At(t, b, Admitted) && t.adds[b].key == s.adds[a].key;
    assert t.maps.backends == s.maps.backends && t.maps.pending == s.maps.pending && t.maps.reserving == s.maps.reserving;
    assert t.run.Up? && t.healthy;
    assert OnlyMarked(t, b);
    assert QuietBut(t, a, t.adds[b].key);
    var p := t.adds[a].phase;
    hide Apply, Enabled, OnlyMarked, QuietBut;
    var other := UnheardName(t);
    var d := FreshId(t.adds.Keys);
    if p.StopUnpublished? {
      StopFirst(c, t, a, b, d, other);
    } else if p.DropReservation? {
      StaleReservation(c, t, a, b, d, other);
    } else if p.ReturnAddress? {
      StaleMarkLater(c, t, a, b, d);
    } else {
      StaleMark(c, t, a, b, d);
    }
  }

  /** Admitting a key never leads to that damage, whatever happens next, if and only if no
      earlier failed add of the key is still cleaning up. The admission itself does no
      damage: inside the window it takes a continuation to do it. */
  lemma AdmissionSafeIffQuiet(c: Config, s: State, b: nat, name: string)
    requires ValidConfig(c) && ReachableUnderH(c, s) && Enabled(c, false, s, Admit(b, name))
    ensures !Breaks(c, Apply(c, s, Admit(b, name))) <==> Quiet(s.adds, LookupName(name))
    ensures Sound(Apply(c, s, Admit(b, name)))
  {
    ReachableHolds(c, s);
    hide Always;
    AdmissionItselfIsSound(c, s, b, name);
    if Quiet(s.adds, LookupName(name)) {
      QuietIsAllowed(c, s, b, name);
    } else {
      var a :| a in s.adds && s.adds[a].key == LookupName(name) && CleaningUp(s.adds[a].phase);
      hide NoOrphan, Core;
      WindowBreaks(c, s, b, name, a);
    }
  }

  lemma AdmissionItselfIsSound(c: Config, s: State, b: nat, name: string)
    requires Core(c, s) && Enabled(c, false, s, Admit(b, name))
    ensures Sound(Apply(c, s, Admit(b, name)))
  {
    CoreIsSound(c, s);
    var t := Apply(c, s, Admit(b, name));
    if !t.run.Torn? {
      forall x, y ensures !SameKey(t.adds, x, y) && !SameAddress(t.adds, x, y) {
        assert !SameKey(s.adds, x, y) && !SameAddress(s.adds, x, y);
        assert x in s.adds ==> RecordedAdd(s.maps, x, s.adds[x]);
        assert y in s.adds ==> RecordedAdd(s.maps, y, s.adds[y]);
      }
    }
  }

  lemma QuietIsAllowed(c: Config, s: State, b: nat, name: string)
    requires UnderH(c, s) && Enabled(c, false, s, Admit(b, name)) && Quiet(s.adds, LookupName(name))
    ensures !Breaks(c, Apply(c, s, Admit(b, name)))
  {
    var step := Admit(b, name);
    assert Enabled(c, true, s, step);
    var t := Apply(c, s, step);
    assert Legal(c, true, s, [step]) by {
      assert [step][1..] == [];
    }
    assert After(c, true, s, [step]) == t by {
      assert [step][1..] == [];
    }
    hide UnderH, Enabled, Apply, Breaks;
    UnderHKept(c, s, [step]);
    UnderHNeverBreaks(c, t);
  }
}
