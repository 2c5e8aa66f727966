/** The name -> address index both runners keep, with two spellings per backend:
    the name as configured and its lookup name (go/subprocess.go,
    `storeBackendAddress`; go/embedded.go). The abstract view is a plain
    lookup name -> entry map, here called a plan. */
module Aliases {
  import opened Names

  type Index = map<string, string>
  datatype Entry = Entry(name: string, addr: string)
  type Plan = map<string, Entry>

  function Store(m: Index, name: string, addr: string): Index {
    m[name := addr][LookupName(name) := addr]
  }

  /** `backendAddress`: the spelling itself first, then its lookup name. */
  function Resolve(m: Index, spelling: string): Option<string> {
    if spelling in m then Some(m[spelling]) else Get(m, LookupName(spelling))
  }

  /** `Server.BackendDialAddress` asks the runner a second time with the lookup name. */
  function ResolveWithRetry(m: Index, spelling: string): Option<string> {
    var first := Resolve(m, spelling);
    if first.None? && LookupName(spelling) != spelling then Resolve(m, LookupName(spelling)) else first
  }

  ghost predicate WellKeyed(plan: Plan) {
    forall k :: k in plan ==> LookupName(plan[k].name) == k
  }

  /** What a plan says about one spelling: only the two stored spellings are index keys. */
  function Spell(plan: Plan, n: string): Option<string> {
    var k := LookupName(n);
    if k in plan && (n == plan[k].name || n == k) then Some(plan[k].addr) else None
  }

  /** The index holds exactly the two spellings of every planned backend. */
  ghost predicate Agrees(m: Index, plan: Plan) {
    forall n :: Get(m, n) == Spell(plan, n)
  }

  /** The subprocess runner's removal: two deletes. */
  function DeleteTwo(m: Index, name: string): Index {
    m - {name, LookupName(name)}
  }

  /** The embedded runner's removal: every alias with the same lookup name. */
  function ScanDelete(m: Index, key: string): Index {
    map n | n in m && LookupName(n) != key :: m[n]
  }

  lemma ResolveIsByLookupName(m: Index, plan: Plan, spelling: string)
    requires Agrees(m, plan) && WellKeyed(plan)
    ensures Resolve(m, spelling)
            == if LookupName(spelling) in plan then Some(plan[LookupName(spelling)].addr) else None
  {
    var k := LookupName(spelling);
    LookupNameIdempotent(spelling);
    assert Get(m, spelling) == Spell(plan, spelling);
    assert Get(m, k) == Spell(plan, k);
  }

  /** Every way of writing a backend's name, in any case and with any white space around it,
      gives its address, and no other name does. */
  lemma SpellingsResolve(m: Index, plan: Plan, key: string, spelling: string)
    requires Agrees(m, plan) && WellKeyed(plan) && key in plan
    ensures SameLetters(TrimSpace(spelling), TrimSpace(plan[key].name)) ==> Resolve(m, spelling) == Some(plan[key].addr)
    ensures !SameLetters(TrimSpace(spelling), TrimSpace(plan[key].name)) ==> LookupName(spelling) != key
  {
    SameLookupIff(spelling, plan[key].name);
    ResolveIsByLookupName(m, plan, spelling);
  }

  /** The retry never finds anything the first question did not, on any index. */
  lemma RetryIsRedundant(m: Index, spelling: string)
    ensures ResolveWithRetry(m, spelling) == Resolve(m, spelling)
  {
    LookupNameIdempotent(spelling);
  }

  lemma StoreAgrees(m: Index, plan: Plan, name: string, addr: string)
    requires Agrees(m, plan) && WellKeyed(plan)
    requires LookupName(name) !in plan
    ensures Agrees(Store(m, name, addr), plan[LookupName(name) := Entry(name, addr)])
    ensures WellKeyed(plan[LookupName(name) := Entry(name, addr)])
  {
    var k := LookupName(name);
    LookupNameIdempotent(name);
    var plan' := plan[k := Entry(name, addr)];
    forall n ensures Get(Store(m, name, addr), n) == Spell(plan', n) {
      assert Get(m, n) == Spell(plan, n);
    }
  }

  lemma DeleteTwoAgrees(m: Index, plan: Plan, key: string)
    requires Agrees(m, plan) && WellKeyed(plan) && key in plan
    ensures Agrees(DeleteTwo(m, plan[key].name), plan - {key}) && WellKeyed(plan - {key})
  {
    var name := plan[key].name;
    LookupNameIdempotent(name);
    forall n ensures Get(DeleteTwo(m, name), n) == Spell(plan - {key}, n) {
      assert Get(m, n) == Spell(plan, n);
    }
  }

  /** The two removals are the same on every index that agrees with a plan. */
  lemma RemovalsAgree(m: Index, plan: Plan, key: string)
    requires Agrees(m, plan) && WellKeyed(plan) && key in plan
    ensures ScanDelete(m, key) == DeleteTwo(m, plan[key].name)
  {
    var name := plan[key].name;
    LookupNameIdempotent(name);
    forall n ensures n in ScanDelete(m, key) <==> n in DeleteTwo(m, name) {
      assert Get(m, n) == Spell(plan, n);
    }
  }

  /** After a scan-and-delete no spelling of the key resolves, on any index at all. */
  lemma ScanDeleteForgetsEverySpelling(m: Index, key: string, spelling: string)
    requires LookupName(spelling) == key
    ensures Resolve(ScanDelete(m, key), spelling) == None
  {
    LookupNameIdempotent(spelling);
  }

  // ----- the addresses given to the static backends -----

  ghost predicate DistinctKeys(names: seq<string>) {
    forall i, j :: 0 <= i < j < |names| ==> LookupName(names[i]) != LookupName(names[j])
  }

  /** Names are distinct exactly when no two are the same up to case and outer white space. */
  lemma DistinctKeysIff(names: seq<string>)
    ensures DistinctKeys(names) <==>
              forall i, j :: 0 <= i < j < |names| ==> !SameLetters(TrimSpace(names[i]), TrimSpace(names[j]))
  {
    hide LookupName, TrimSpace, SameLetters;
    forall i, j | 0 <= i < j < |names|
      ensures LookupName(names[i]) == LookupName(names[j]) <==> SameLetters(TrimSpace(names[i]), TrimSpace(names[j]))
    {
      SameLookupIff(names[i], names[j]);
    }
  }

  function LoopbackIndex(names: seq<string>, addrs: seq<string>): Index
    requires |names| == |addrs|
  {
    if names == [] then map[]
    else
      var last := |names| - 1;
      Store(LoopbackIndex(names[..last], addrs[..last]), names[last], addrs[last])
  }

  function LoopbackPlan(names: seq<string>, addrs: seq<string>): Plan
    requires |names| == |addrs|
  {
    if names == [] then map[]
    else
      var last := |names| - 1;
      LoopbackPlan(names[..last], addrs[..last])[LookupName(names[last]) := Entry(names[last], addrs[last])]
  }

  lemma {:induction false} LoopbackPlanKeys(names: seq<string>, addrs: seq<string>, key: string)
    requires |names| == |addrs| && key in LoopbackPlan(names, addrs)
    ensures exists i :: 0 <= i < |names| && LookupName(names[i]) == key
  {
    var last := |names| - 1;
    if key == LookupName(names[last]) {
      assert LookupName(names[last]) == key;
    } else {
      LoopbackPlanKeys(names[..last], addrs[..last], key);
      var i :| 0 <= i < last && LookupName(names[..last][i]) == key;
      assert LookupName(names[i]) == key;
    }
  }

  lemma {:induction false} LoopbackPlanEntry(names: seq<string>, addrs: seq<string>, i: nat)
    requires |names| == |addrs| && DistinctKeys(names) && i < |names|
    ensures Get(LoopbackPlan(names, addrs), LookupName(names[i])) == Some(Entry(names[i], addrs[i]))
  {
    var last := |names| - 1;
    if i < last {
      LoopbackPlanEntry(names[..last], addrs[..last], i);
      assert names[..last][i] == names[i];
    }
  }

  /** Later stores never overwrite an earlier backend's spellings. */
  lemma {:induction false} LoopbackAgrees(names: seq<string>, addrs: seq<string>)
    requires |names| == |addrs| && DistinctKeys(names)
    ensures Agrees(LoopbackIndex(names, addrs), LoopbackPlan(names, addrs))
    ensures WellKeyed(LoopbackPlan(names, addrs))
  {
    if names != [] {
      var last := |names| - 1;
      var before := LoopbackPlan(names[..last], addrs[..last]);
      LoopbackAgrees(names[..last], addrs[..last]);
      if LookupName(names[last]) in before {
        LoopbackPlanKeys(names[..last], addrs[..last], LookupName(names[last]));
      }
      StoreAgrees(LoopbackIndex(names[..last], addrs[..last]), before, names[last], addrs[last]);
    }
  }

  function Value(m: Index, n: string): string {
    if n in m then m[n] else ""
  }

  /** The bind a child is told: an absent or empty entry falls back to the lookup name
      (go/config.go, `nativeConfigJSONWithBackendBinds`). */
  function ToldBind(binds: Index, name: string): string {
    if Value(binds, name) != "" then Value(binds, name) else Value(binds, LookupName(name))
  }

  /** Every child is told to bind the very address later resolved for any spelling of its name. */
  lemma ToldEqualsPublished(names: seq<string>, addrs: seq<string>, i: nat, spelling: string)
    requires |names| == |addrs| && DistinctKeys(names) && i < |names|
    requires LookupName(spelling) == LookupName(names[i])
    ensures ToldBind(LoopbackIndex(names, addrs), names[i]) == addrs[i]
    ensures Resolve(LoopbackIndex(names, addrs), spelling) == Some(addrs[i])
  {
    LoopbackAgrees(names, addrs);
    LoopbackPlanEntry(names, addrs, i);
    var m, plan := LoopbackIndex(names, addrs), LoopbackPlan(names, addrs);
    ResolveIsByLookupName(m, plan, spelling);
    LookupNameIdempotent(names[i]);
    assert Get(m, names[i]) == Spell(plan, names[i]);
    assert Get(m, LookupName(names[i])) == Spell(plan, LookupName(names[i]));
  }
}
