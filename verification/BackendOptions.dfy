/** `Options.validate` (go/options.go) on the backend list it rewrites in place, and the
    binds the child processes are told (go/config.go). Whether an address has a usable host
    and port is a parameter: it is decided by the standard library. */
module BackendOptions {
  import opened Names
  import opened Aliases

  datatype Backend = Backend(name: string, address: string, version: string, detect: bool, forwarding: string)

  datatype OptionError = NameRequired | AddressRequired | InvalidAddress | InvalidForwarding | Duplicate

  type AddressCheck = string -> bool

  predicate KnownForwarding(f: string) {
    f == "none" || f == "legacy" || f == "velocity"
  }

  function Normalize(valid: AddressCheck, b: Backend): Result<Backend, OptionError> {
    var name, address, version := TrimSpace(b.name), TrimSpace(b.address), TrimSpace(b.version);
    var auto := version == "" || Lower(version) == "auto";
    var forwarding := if b.forwarding == "" then "none" else b.forwarding;
    if name == "" then Err(NameRequired)
    else if address == "" then Err(AddressRequired)
    else if !valid(address) then Err(InvalidAddress)
    else if !KnownForwarding(forwarding) then Err(InvalidForwarding)
    else Ok(Backend(name, address, if auto then "auto" else version, auto || b.detect, forwarding))
  }

  /** Which fault of a backend is reported: the first of these that applies, none otherwise. */
  lemma NormalizeFaults(valid: AddressCheck, b: Backend)
    ensures Normalize(valid, b) == Err(NameRequired) <==> TrimSpace(b.name) == ""
    ensures Normalize(valid, b) == Err(AddressRequired) <==> TrimSpace(b.name) != "" && TrimSpace(b.address) == ""
    ensures Normalize(valid, b) == Err(InvalidAddress) <==>
              TrimSpace(b.name) != "" && TrimSpace(b.address) != "" && !valid(TrimSpace(b.address))
    ensures Normalize(valid, b) == Err(InvalidForwarding) <==>
              && TrimSpace(b.name) != "" && TrimSpace(b.address) != "" && valid(TrimSpace(b.address))
              && b.forwarding !in ["", "none", "legacy", "velocity"]
    ensures Normalize(valid, b) != Err(Duplicate)
  {
    hide TrimSpace, Lower;
  }

  /** What an accepted backend becomes, field by field: no version, or "auto" in any case,
      means the automatic one and turns detection on; no forwarding means "none". */
  lemma NormalizeFields(valid: AddressCheck, b: Backend)
    requires Normalize(valid, b).Ok?
    ensures var n, automatic := Normalize(valid, b).ok, SameLetters(TrimSpace(b.version), "auto") || TrimSpace(b.version) == "";
            && n.name == TrimSpace(b.name) && n.address == TrimSpace(b.address)
            && n.version == (if automatic then "auto" else TrimSpace(b.version))
            && (n.detect <==> b.detect || automatic)
            && n.forwarding == (if b.forwarding == "" then "none" else b.forwarding)
  {
    LowerIff(TrimSpace(b.version), "auto");
    assert Lower("auto") == "auto";
    hide TrimSpace, Lower, SameLetters;
  }

  /** Normalising twice is normalising once. */
  lemma NormalizeIdempotent(valid: AddressCheck, b: Backend)
    requires Normalize(valid, b).Ok?
    ensures Normalize(valid, Normalize(valid, b).ok) == Normalize(valid, b)
  {
    TrimSpaceTrims(b.name);
    TrimSpaceTrims(b.address);
    TrimSpaceTrims(b.version);
    TrimSpaceFixesTrimmed(TrimSpace(b.name));
    TrimSpaceFixesTrimmed(TrimSpace(b.address));
    TrimSpaceFixesTrimmed(TrimSpace(b.version));
    TrimSpaceFixesTrimmed("auto");
    assert Lower("auto") == "auto";
  }

  /** What `validate` accepts: every backend normalises, and no two share a lookup name. */
  ghost predicate Acceptable(valid: AddressCheck, bs: seq<Backend>) {
    && (forall i :: 0 <= i < |bs| ==> Normalize(valid, bs[i]).Ok?)
    && DistinctKeys(NamesOf(bs))
  }

  function NamesOf(bs: seq<Backend>): (names: seq<string>)
    ensures |names| == |bs| && forall i :: 0 <= i < |bs| ==> names[i] == bs[i].name
  {
    seq(|bs|, i requires 0 <= i < |bs| => bs[i].name)
  }

  predicate Normalized(valid: AddressCheck, before: seq<Backend>, after: seq<Backend>, n: nat)
    requires n <= |before| == |after|
  {
    forall i :: 0 <= i < n ==> Normalize(valid, before[i]) == Ok(after[i])
  }

  predicate SameKey(bs: seq<Backend>, i: nat, j: nat)
    requires i < |bs| && j < |bs|
  {
    LookupName(bs[i].name) == LookupName(bs[j].name)
  }

  /** The entry does not normalise, or an earlier one has its lookup name. */
  predicate Rejects(valid: AddressCheck, bs: seq<Backend>, i: nat)
    requires i < |bs|
  {
    Normalize(valid, bs[i]).Err? || exists j :: 0 <= j < i && SameKey(bs, j, i)
  }

  predicate FirstRejected(valid: AddressCheck, bs: seq<Backend>, bad: nat) {
    bad < |bs| && Rejects(valid, bs, bad) && forall i :: 0 <= i < bad ==> !Rejects(valid, bs, i)
  }

  function ErrorAt(valid: AddressCheck, b: Backend): OptionError {
    if Normalize(valid, b).Err? then Normalize(valid, b).error else Duplicate
  }

  /** The list the loop leaves behind when it ends at `bad`: up to and including that entry
      everything that normalises is replaced, a duplicate too. */
  function Rewritten(valid: AddressCheck, bs: seq<Backend>, bad: nat): (after: seq<Backend>)
    ensures |after| == |bs|
  {
    seq(|bs|, i requires 0 <= i < |bs| =>
      if i <= bad && Normalize(valid, bs[i]).Ok? then Normalize(valid, bs[i]).ok else bs[i])
  }

  /** The loop of `validate`. On an error at index `bad` the list is left normalised up to
      there: the slice is the caller's own. */
  method Validate(valid: AddressCheck, backends: array<Backend>) returns (error: Option<OptionError>, bad: nat)
    modifies backends
    ensures error.None? <==> Acceptable(valid, old(backends[..]))
    ensures error.None? ==> bad == backends.Length
    ensures error.Some? ==> bad < backends.Length
    ensures Normalized(valid, old(backends[..]), backends[..], bad)
    ensures forall i :: bad < i < backends.Length ==> backends[i] == old(backends[i])
    ensures error.Some? ==> FirstRejected(valid, old(backends[..]), bad)
                            && error == Some(ErrorAt(valid, old(backends[..])[bad]))
    ensures error == Some(Duplicate) ==> Normalize(valid, old(backends[..])[bad]) == Ok(backends[bad])
    ensures backends[..] == Rewritten(valid, old(backends[..]), bad)
  {
    hide Normalize, LookupName, Acceptable, Rejects, ErrorAt;
    var seen: set<string> := {};
    ghost var was := backends[..];
    bad := 0;
    while bad < backends.Length
      invariant 0 <= bad <= backends.Length
      invariant Normalized(valid, was, backends[..], bad)
      invariant forall i :: bad <= i < backends.Length ==> backends[i] == was[i]
      invariant forall k :: k in seen <==> exists i :: 0 <= i < bad && LookupName(backends[i].name) == k
      invariant forall i, j :: 0 <= i < j < bad ==> LookupName(backends[i].name) != LookupName(backends[j].name)
      invariant forall i :: 0 <= i < bad ==> !Rejects(valid, was, i)
    {
      var b := Normalize(valid, backends[bad]);
      if b.Err? {
        error := Some(b.error);
        NotAcceptable(valid, was, bad);
        NeverDuplicate(valid, was[bad]);
        RejectedAt(valid, was, bad);
        return;
      }
      ghost var earlier := backends[..];
      backends[bad] := b.ok;
      var key := LookupName(b.ok.name);
      if key in seen {
        ghost var i :| 0 <= i < bad && LookupName(earlier[i].name) == key;
        assert SameKey(backends[..], i, bad);
        SameKeyAsBefore(valid, was, backends[..], i, bad);
        RejectedAt(valid, was, bad);
        error := Some(Duplicate);
        return;
      }
      NotRejectedAt(valid, was, backends[..], bad);
      seen := seen + {key};
      bad := bad + 1;
    }
    AcceptableIfDistinct(valid, was, backends[..]);
    assert backends[..] == Rewritten(valid, was, bad);
    error := None;
  }

  lemma NormalizedKey(valid: AddressCheck, b: Backend)
    requires Normalize(valid, b).Ok?
    ensures LookupName(Normalize(valid, b).ok.name) == LookupName(b.name)
  {
    LookupNameIdempotent(b.name);
  }

  lemma NeverDuplicate(valid: AddressCheck, b: Backend)
    requires Normalize(valid, b).Err?
    ensures Normalize(valid, b).error != Duplicate
  {
  }

  lemma RejectedAt(valid: AddressCheck, before: seq<Backend>, i: nat)
    requires i < |before| && (Normalize(valid, before[i]).Err? || exists j :: 0 <= j < i && SameKey(before, j, i))
    ensures Rejects(valid, before, i)
    ensures ErrorAt(valid, before[i])
            == if Normalize(valid, before[i]).Err? then Normalize(valid, before[i]).error else Duplicate
  {
  }

  lemma NotRejectedAt(valid: AddressCheck, before: seq<Backend>, after: seq<Backend>, i: nat)
    requires i < |before| == |after| && Normalized(valid, before, after, i + 1)
    requires forall j :: 0 <= j < i ==> LookupName(after[j].name) != LookupName(after[i].name)
    ensures !Rejects(valid, before, i)
  {
    NormalizedKey(valid, before[i]);
    assert Normalize(valid, before[i]) == Ok(after[i]);
    forall j | 0 <= j < i ensures !SameKey(before, j, i) {
      NormalizedKey(valid, before[j]);
      assert Normalize(valid, before[j]) == Ok(after[j]);
    }
  }

  /** Acceptance is that no entry is rejected. */
  lemma AcceptableIff(valid: AddressCheck, bs: seq<Backend>)
    ensures Acceptable(valid, bs) <==> forall i :: 0 <= i < |bs| ==> !Rejects(valid, bs, i)
  {
    hide Normalize, LookupName, NamesOf;
    if forall i :: 0 <= i < |bs| ==> !Rejects(valid, bs, i) {
      forall i, j | 0 <= i < j < |bs| ensures LookupName(NamesOf(bs)[i]) != LookupName(NamesOf(bs)[j]) {
        assert !Rejects(valid, bs, j);
        assert !SameKey(bs, i, j);
      }
      forall i | 0 <= i < |bs| ensures Normalize(valid, bs[i]).Ok? {
        assert !Rejects(valid, bs, i);
      }
    }
    if Acceptable(valid, bs) {
      forall i | 0 <= i < |bs| ensures !Rejects(valid, bs, i) {
        assert Normalize(valid, bs[i]).Ok?;
        forall j | 0 <= j < i ensures !SameKey(bs, j, i) {
          assert LookupName(NamesOf(bs)[j]) != LookupName(NamesOf(bs)[i]);
        }
      }
    }
  }

  predicate Canonical(valid: AddressCheck, b: Backend) {
    Normalize(valid, b) == Ok(b)
  }

  /** A rejected list comes back untouched if and only if every entry before the rejected
      one was normal already, and so was that entry itself if it is only a duplicate. */
  lemma RejectedUntouchedIff(valid: AddressCheck, bs: seq<Backend>, bad: nat)
    requires FirstRejected(valid, bs, bad)
    ensures Rewritten(valid, bs, bad) == bs <==>
              && (forall i :: 0 <= i < bad ==> Canonical(valid, bs[i]))
              && (Normalize(valid, bs[bad]).Ok? ==> Canonical(valid, bs[bad]))
  {
    hide Normalize, LookupName;
    var after := Rewritten(valid, bs, bad);
    forall i | 0 <= i < |bs|
      ensures after[i] == bs[i] <==> i > bad || Normalize(valid, bs[i]).Err? || Canonical(valid, bs[i])
    {
    }
    assert forall i :: 0 <= i < bad ==> !Rejects(valid, bs, i);
    if (forall i :: 0 <= i < bad ==> Canonical(valid, bs[i])) && (Normalize(valid, bs[bad]).Ok? ==> Canonical(valid, bs[bad])) {
      forall i | 0 <= i < |bs| ensures after[i] == bs[i] {
        assert i == bad || i < bad || i > bad;
      }
      assert after == bs;
    }
    if after == bs {
      forall i | 0 <= i < bad ensures Canonical(valid, bs[i]) {
        assert !Rejects(valid, bs, i) && after[i] == bs[i];
      }
      assert after[bad] == bs[bad];
    }
  }

  /** Two lists that are rejected and changed: the entry before a bad one, and a duplicate. */
  lemma RejectedAndChanged(valid: AddressCheck)
    requires valid("h:1")
    ensures var untrimmed, nameless := Backend(" a", "h:1", "auto", true, "none"), Backend("", "h:1", "auto", true, "none");
            FirstRejected(valid, [untrimmed, nameless], 1)
            && Rewritten(valid, [untrimmed, nameless], 1)[0].name == "a"
    ensures var a, again := Backend("a", "h:1", "auto", true, "none"), Backend(" A", "h:1", "auto", true, "none");
            FirstRejected(valid, [a, again], 1) && ErrorAt(valid, again) == Duplicate
            && Rewritten(valid, [a, again], 1)[1].name == "A"
  {
    Spellings();
    hide TrimSpace, Lower;
    var untrimmed, nameless := Backend(" a", "h:1", "auto", true, "none"), Backend("", "h:1", "auto", true, "none");
    assert Normalize(valid, untrimmed) == Ok(Backend("a", "h:1", "auto", true, "none"));
    assert Normalize(valid, nameless) == Err(NameRequired);
    assert !Rejects(valid, [untrimmed, nameless], 0) && Rejects(valid, [untrimmed, nameless], 1);
    var a, again := Backend("a", "h:1", "auto", true, "none"), Backend(" A", "h:1", "auto", true, "none");
    assert Normalize(valid, a) == Ok(a);
    assert Normalize(valid, again) == Ok(Backend("A", "h:1", "auto", true, "none"));
    assert SameKey([a, again], 0, 1);
    assert !Rejects(valid, [a, again], 0) && Rejects(valid, [a, again], 1);
  }

  lemma Spellings()
    ensures TrimSpace(" a") == TrimSpace("a") == "a" && TrimSpace(" A") == "A" && TrimSpace("") == ""
    ensures TrimSpace("h:1") == "h:1" && TrimSpace("auto") == "auto" && Lower("auto") == "auto"
    ensures LookupName("a") == LookupName(" A") == LookupName(" a") == "a"
  {
    assert " a"[1..] == "a" && " A"[1..] == "A";
    assert TrimLeft("a") == "a" && TrimLeft("A") == "A";
    assert Lower("a") == "a" && Lower("A") == "a" && Lower("auto") == "auto";
    TrimSpaceFixesTrimmed("h:1");
    TrimSpaceFixesTrimmed("auto");
  }

  lemma NotAcceptable(valid: AddressCheck, before: seq<Backend>, i: nat)
    requires i < |before| && Normalize(valid, before[i]).Err?
    ensures !Acceptable(valid, before)
  {
  }

  lemma AcceptableIfDistinct(valid: AddressCheck, before: seq<Backend>, after: seq<Backend>)
    requires |before| == |after| && Normalized(valid, before, after, |before|)
    requires forall i, j :: 0 <= i < j < |after| ==> LookupName(after[i].name) != LookupName(after[j].name)
    ensures Acceptable(valid, before)
  {
    forall i, j | 0 <= i < j < |before| ensures LookupName(NamesOf(before)[i]) != LookupName(NamesOf(before)[j]) {
      NormalizedKey(valid, before[i]);
      NormalizedKey(valid, before[j]);
      assert Normalize(valid, before[i]) == Ok(after[i]) && Normalize(valid, before[j]) == Ok(after[j]);
    }
    forall i | 0 <= i < |before| ensures Normalize(valid, before[i]).Ok? {
      assert Normalize(valid, before[i]) == Ok(after[i]);
    }
  }

  lemma SameKeyAsBefore(valid: AddressCheck, before: seq<Backend>, after: seq<Backend>, i: nat, j: nat)
    requires i < j < |before| == |after| && Normalized(valid, before, after, j + 1) && SameKey(after, i, j)
    ensures !Acceptable(valid, before) && SameKey(before, i, j)
  {
    NormalizedKey(valid, before[i]);
    NormalizedKey(valid, before[j]);
    assert Normalize(valid, before[i]) == Ok(after[i]) && Normalize(valid, before[j]) == Ok(after[j]);
    assert LookupName(NamesOf(before)[i]) == LookupName(NamesOf(before)[j]);
  }

  /** An accepted list is accepted again, unchanged. */
  lemma ValidateIdempotent(valid: AddressCheck, before: seq<Backend>, after: seq<Backend>)
    requires |before| == |after| && Acceptable(valid, before) && Normalized(valid, before, after, |before|)
    ensures Acceptable(valid, after) && Normalized(valid, after, after, |after|)
  {
    forall i | 0 <= i < |after| ensures Normalize(valid, after[i]) == Ok(after[i]) {
      NormalizeIdempotent(valid, before[i]);
    }
    forall i, j | 0 <= i < j < |after| ensures LookupName(NamesOf(after)[i]) != LookupName(NamesOf(after)[j]) {
      NormalizedKey(valid, before[i]);
      NormalizedKey(valid, before[j]);
      assert LookupName(NamesOf(before)[i]) != LookupName(NamesOf(before)[j]);
    }
  }

  // ----- from an accepted list to addresses and child configs -----

  datatype BackendConfig = BackendConfig(name: string, address: string, bind: string, version: string, detect: bool, forwarding: string)

  /** `nativeConfigJSONWithBackendBinds`, up to the encoding. */
  method NativeConfig(backends: seq<Backend>, binds: Index) returns (cfg: seq<BackendConfig>)
    ensures |cfg| == |backends|
    ensures forall i :: 0 <= i < |cfg| ==>
              var b := backends[i];
              cfg[i] == BackendConfig(b.name, b.address, ToldBind(binds, b.name), b.version, b.detect, b.forwarding)
    ensures forall i :: 0 <= i < |cfg| ==>
              var name, key := backends[i].name, LookupName(backends[i].name);
              cfg[i].bind == if name in binds && binds[name] != "" then binds[name]
                             else if key in binds then binds[key]
                             else ""
  {
    cfg := [];
    for i := 0 to |backends|
      invariant |cfg| == i
      invariant forall j :: 0 <= j < i ==>
                  var b := backends[j];
                  cfg[j] == BackendConfig(b.name, b.address, ToldBind(binds, b.name), b.version, b.detect, b.forwarding)
    {
      var b := backends[i];
      var bind := Value(binds, b.name);
      if bind == "" {
        bind := Value(binds, LookupName(b.name));
      }
      cfg := cfg + [BackendConfig(b.name, b.address, bind, b.version, b.detect, b.forwarding)];
    }
  }

  datatype AllocationError = BindShared | NoAddress(name: string)

  /** `loopbackBackendAddresses`. `pinned` says that Options.Bind names a port; `probes` are
      the addresses the probe listeners got. A pinned port is handed out verbatim. */
  method LoopbackBackendAddresses(bind: string, pinned: bool, backends: seq<Backend>, probes: seq<Option<string>>)
    returns (addrs: Result<Index, AllocationError>, given: seq<string>)
    requires |probes| == |backends|
    ensures addrs.Ok? <==> (|backends| > 1 ==> !pinned) && forall i :: 0 <= i < |probes| ==> probes[i].Some?
    ensures addrs.Ok? ==> |given| == |backends| && addrs.ok == LoopbackIndex(NamesOf(backends), given)
    ensures addrs.Ok? ==> given == Given(bind, pinned, probes)
    ensures addrs.Ok? ==> forall i :: 0 <= i < |given| ==> if pinned then given[i] == bind else Some(given[i]) == probes[i]
  {
    given := [];
    if |backends| > 1 && pinned {
      return Err(BindShared), given;
    }
    var m: Index := map[];
    for i := 0 to |backends|
      invariant |given| == i && (forall j :: 0 <= j < i ==> probes[j].Some?)
      invariant forall j :: 0 <= j < i ==> given[j] == if pinned then bind else probes[j].value
      invariant m == LoopbackIndex(NamesOf(backends)[..i], given)
    {
      if probes[i].None? {
        return Err(NoAddress(backends[i].name)), given;
      }
      var addr := if pinned then bind else probes[i].value;
      assert NamesOf(backends)[..i + 1][..i] == NamesOf(backends)[..i];
      assert (given + [addr])[..i] == given;
      m := Store(m, backends[i].name, addr);
      given := given + [addr];
    }
    assert NamesOf(backends)[..|backends|] == NamesOf(backends);
    return Ok(m), given;
  }

  /** For every list `validate` accepts: the bind in the config of each child is the
      address any spelling of that backend's name resolves to afterwards. */
  lemma ToldIsResolved(valid: AddressCheck, before: seq<Backend>, after: seq<Backend>, given: seq<string>, i: nat, spelling: string)
    requires |before| == |after| == |given| && Acceptable(valid, before) && Normalized(valid, before, after, |before|)
    requires i < |after| && LookupName(spelling) == LookupName(after[i].name)
    ensures var m := LoopbackIndex(NamesOf(after), given);
            ToldBind(m, after[i].name) == given[i] && Resolve(m, spelling) == Some(given[i])
  {
    ValidateIdempotent(valid, before, after);
    ToldEqualsPublished(NamesOf(after), given, i, spelling);
  }

  /** The addresses a successful allocation gives, in order. */
  function Given(bind: string, pinned: bool, probes: seq<Option<string>>): (given: seq<string>)
    requires forall i :: 0 <= i < |probes| ==> probes[i].Some?
    ensures |given| == |probes|
  {
    seq(|probes|, i requires 0 <= i < |probes| => if pinned then bind else probes[i].value)
  }

  /** Static addresses are not compared with each other: of a list that was given addresses,
      two backends resolve to different ones exactly when their probes did not repeat. */
  lemma StaticsDistinctIff(bind: string, pinned: bool, backends: seq<Backend>, probes: seq<Option<string>>, i: nat, j: nat)
    requires DistinctKeys(NamesOf(backends)) && |probes| == |backends| && i < j < |backends|
    requires !pinned && forall k :: 0 <= k < |probes| ==> probes[k].Some?
    ensures var m := LoopbackIndex(NamesOf(backends), Given(bind, pinned, probes));
            Resolve(m, backends[i].name) != Resolve(m, backends[j].name) <==> probes[i] != probes[j]
  {
    var names, given := NamesOf(backends), Given(bind, pinned, probes);
    ToldEqualsPublished(names, given, i, names[i]);
    ToldEqualsPublished(names, given, j, names[j]);
  }

  /** The witness: a probe listener is closed before the next one opens, so two backends
      can be given one address, and both names then resolve to it. */
  lemma StaticsCanCollide(addr: string)
    ensures var backends := [Backend("a", "h:1", "auto", true, "none"), Backend("b", "h:2", "auto", true, "none")];
            var m := LoopbackIndex(NamesOf(backends), Given("", false, [Some(addr), Some(addr)]));
            DistinctKeys(NamesOf(backends)) && Resolve(m, "a") == Resolve(m, "b") == Some(addr)
  {
    var backends := [Backend("a", "h:1", "auto", true, "none"), Backend("b", "h:2", "auto", true, "none")];
    TrimSpaceFixesTrimmed("a");
    TrimSpaceFixesTrimmed("b");
    assert Lower("a") == "a" && Lower("b") == "b";
    var names, given := NamesOf(backends), Given("", false, [Some(addr), Some(addr)]);
    assert names[0] == "a" && names[1] == "b";
    assert DistinctKeys(names);
    hide LookupName, TrimSpace, Lower;
    ToldEqualsPublished(names, given, 0, "a");
    ToldEqualsPublished(names, given, 1, "b");
  }
}
