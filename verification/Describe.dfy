/** The list of binds in a readiness failure (go/subprocess.go, `describeBackendBinds`).
    It walks two maps in whatever order the run gives; the text is the same in all. */
module Describe {
  import opened Names
  import opened Aliases
  import opened Text

  // ----- Go's order on strings -----

  predicate LessEq(a: string, b: string) {
    a == "" || (b != "" && (a[0] < b[0] || (a[0] == b[0] && LessEq(a[1..], b[1..]))))
  }

  lemma {:induction false} Total(a: string, b: string)
    ensures LessEq(a, b) || LessEq(b, a)
  {
    if a != "" && b != "" && a[0] == b[0] {
      Total(a[1..], b[1..]);
    }
  }

  lemma {:induction false} Antisymmetric(a: string, b: string)
    requires LessEq(a, b) && LessEq(b, a)
    ensures a == b
  {
    if a != "" {
      Antisymmetric(a[1..], b[1..]);
      assert a == [a[0]] + a[1..] && b == [b[0]] + b[1..];
    }
  }

  lemma {:induction false} Transitive(a: string, b: string, c: string)
    requires LessEq(a, b) && LessEq(b, c)
    ensures LessEq(a, c)
  {
    if a != "" && a[0] == b[0] && b[0] == c[0] {
      Transitive(a[1..], b[1..], c[1..]);
    }
  }

  /** Byte order: a prefix comes first, otherwise the first difference decides. */
  lemma {:induction false} LessEqIs(a: string, b: string)
    ensures LessEq(a, b) <==>
              || a <= b
              || exists i :: 0 <= i < |a| && i < |b| && a[..i] == b[..i] && (a[i] as int) < (b[i] as int)
  {
    if a != "" && b != "" {
      if a[0] == b[0] {
        var x, y := a[1..], b[1..];
        LessEqIs(x, y);
        assert a == [a[0]] + x && b == [b[0]] + y;
        if i :| 0 <= i < |x| && i < |y| && x[..i] == y[..i] && (x[i] as int) < (y[i] as int) {
          assert a[..i + 1] == [a[0]] + x[..i] && b[..i + 1] == [b[0]] + y[..i];
        }
        if i :| 0 <= i < |a| && i < |b| && a[..i] == b[..i] && (a[i] as int) < (b[i] as int) {
          assert i > 0;
          assert x[..i - 1] == a[..i][1..] && y[..i - 1] == b[..i][1..];
          assert x[i - 1] == a[i] && y[i - 1] == b[i];
        }
      } else {
        assert a[..0] == b[..0];
        if i :| 0 <= i < |a| && i < |b| && a[..i] == b[..i] && (a[i] as int) < (b[i] as int) {
          assert i > 0 ==> a[..i][0] == b[..i][0];
        }
      }
    }
  }

  predicate Sorted(s: seq<string>) {
    forall i, j :: 0 <= i < j < |s| ==> LessEq(s[i], s[j])
  }

  function Insert(x: string, s: seq<string>): seq<string> {
    if s == [] || LessEq(x, s[0]) then [x] + s else [s[0]] + Insert(x, s[1..])
  }

  /** `sort.Strings`, whose result only the properties below fix. */
  function SortStrings(s: seq<string>): seq<string> {
    if s == [] then [] else Insert(s[0], SortStrings(s[1..]))
  }

  lemma {:induction false} InsertAdds(x: string, s: seq<string>)
    ensures multiset(Insert(x, s)) == multiset(s) + multiset{x}
  {
    hide LessEq;
    if s != [] && !LessEq(x, s[0]) {
      assert s == [s[0]] + s[1..];
      InsertAdds(x, s[1..]);
    }
  }

  lemma HeadIsLeast(s: seq<string>, x: string)
    requires Sorted(s) && x in s
    ensures LessEq(s[0], x)
  {
    Total(x, x);
    hide LessEq;
  }

  lemma SortedFront(x: string, s: seq<string>)
    requires Sorted(s) && forall y :: y in s ==> LessEq(x, y)
    ensures Sorted([x] + s)
  {
    hide LessEq;
    var t := [x] + s;
    forall i, j | 0 <= i < j < |t| ensures LessEq(t[i], t[j]) {
      assert t[j] == s[j - 1] && s[j - 1] in s;
      assert i > 0 ==> t[i] == s[i - 1];
    }
  }

  lemma {:induction false} InsertSorts(x: string, s: seq<string>)
    requires Sorted(s)
    ensures Sorted(Insert(x, s))
  {
    if s == [] {
    } else if LessEq(x, s[0]) {
      hide LessEq;
      forall y | y in s ensures LessEq(x, y) {
        HeadIsLeast(s, y);
        Transitive(x, s[0], y);
      }
      SortedFront(x, s);
    } else {
      Total(x, s[0]);
      hide LessEq;
      var rest := s[1..];
      InsertSorts(x, rest);
      InsertAdds(x, rest);
      forall y | y in Insert(x, rest) ensures LessEq(s[0], y) {
        assert y in multiset(Insert(x, rest));
        assert y == x || y in rest;
      }
      SortedFront(s[0], Insert(x, rest));
    }
  }

  lemma {:induction false} SortSorts(s: seq<string>)
    ensures Sorted(SortStrings(s)) && multiset(SortStrings(s)) == multiset(s)
  {
    if s != [] {
      assert s == [s[0]] + s[1..];
      SortSorts(s[1..]);
      InsertSorts(s[0], SortStrings(s[1..]));
      InsertAdds(s[0], SortStrings(s[1..]));
    }
  }

  /** A sorted list is determined by what it holds. */
  lemma {:induction false} SortedUnique(a: seq<string>, b: seq<string>)
    requires Sorted(a) && Sorted(b) && multiset(a) == multiset(b)
    ensures a == b
  {
    hide LessEq;
    assert |multiset(a)| == |a| && |multiset(b)| == |b|;
    if a != [] {
      assert a[0] in multiset(b) && b[0] in multiset(a);
      HeadIsLeast(a, b[0]);
      HeadIsLeast(b, a[0]);
      Antisymmetric(a[0], b[0]);
      assert a == [a[0]] + a[1..] && b == [b[0]] + b[1..];
      assert multiset(a[1..]) == multiset(a) - multiset{a[0]};
      assert multiset(b[1..]) == multiset(b) - multiset{b[0]};
      SortedUnique(a[1..], b[1..]);
    }
  }

  // ----- one label for each address -----

  ghost predicate LeastName(index: Index, addr: string, name: string) {
    && name in index && index[name] == addr
    && forall n :: n in index && index[n] == addr ==> LessEq(name, n)
  }

  /** Every address of the part of the index seen so far, with its least name. */
  ghost predicate Labels(labels: map<string, string>, index: Index) {
    && (forall n :: n in index ==> index[n] in labels)
    && (forall addr :: addr in labels ==> LeastName(index, addr, labels[addr]))
  }

  lemma LabelsUnique(x: map<string, string>, y: map<string, string>, index: Index)
    requires Labels(x, index) && Labels(y, index)
    ensures x == y
  {
    forall addr | addr in x ensures addr in y && x[addr] == y[addr] {
      assert LeastName(index, addr, x[addr]);
      assert index[x[addr]] == addr;
      assert LeastName(index, addr, y[addr]);
      Antisymmetric(x[addr], y[addr]);
    }
    forall addr | addr in y ensures addr in x {
      assert LeastName(index, addr, y[addr]);
      assert index[y[addr]] == addr;
    }
  }

  function EntryText(labels: map<string, string>, addr: string): string {
    if addr in labels then labels[addr] + "=" + addr else ""
  }

  function EntryTexts(labels: map<string, string>, order: seq<string>): seq<string> {
    if order == [] then [] else [EntryText(labels, order[0])] + EntryTexts(labels, order[1..])
  }

  ghost predicate Lists(order: seq<string>, addrs: set<string>) {
    && (forall a :: a in order <==> a in addrs)
    && (forall i, j :: 0 <= i < j < |order| ==> order[i] != order[j])
  }

  /** What the text must be: some order of the addresses, each once, each with its least
      name, the entries sorted and joined. */
  ghost predicate Describes(text: string, index: Index) {
    exists labels, order, entries ::
      && Labels(labels, index) && Lists(order, labels.Keys)
      && Sorted(entries) && multiset(entries) == multiset(EntryTexts(labels, order))
      && text == Join(entries, ", ")
  }

  lemma {:induction false} TextsOfPermutation(labels: map<string, string>, x: seq<string>, y: seq<string>)
    requires multiset(x) == multiset(y)
    ensures multiset(EntryTexts(labels, x)) == multiset(EntryTexts(labels, y))
  {
    if x == [] {
      assert |multiset(y)| == 0;
    } else {
      assert x[0] in multiset(y);
      var i :| 0 <= i < |y| && y[i] == x[0];
      var y' := y[..i] + y[i + 1..];
      assert x == [x[0]] + x[1..];
      assert multiset(x[1..]) == multiset(x) - multiset{x[0]};
      WithoutOne(y, i);
      TextsOfPermutation(labels, x[1..], y');
      PullOut(labels, y, i);
    }
  }

  lemma WithoutOne(y: seq<string>, i: nat)
    requires i < |y|
    ensures multiset(y[..i] + y[i + 1..]) == multiset(y) - multiset{y[i]}
  {
    assert y == y[..i] + ([y[i]] + y[i + 1..]);
  }

  lemma {:induction false} PullOut(labels: map<string, string>, y: seq<string>, i: nat)
    requires i < |y|
    ensures multiset(EntryTexts(labels, y))
            == multiset{EntryText(labels, y[i])} + multiset(EntryTexts(labels, y[..i] + y[i + 1..]))
  {
    hide EntryText;
    if i == 0 {
      assert y[..0] + y[1..] == y[1..];
    } else {
      var y' := y[..i] + y[i + 1..];
      assert y'[1..] == y[1..][..i - 1] + y[1..][i..];
      PullOut(labels, y[1..], i - 1);
    }
  }

  lemma SameListing(x: seq<string>, y: seq<string>, addrs: set<string>)
    requires Lists(x, addrs) && Lists(y, addrs)
    ensures multiset(x) == multiset(y)
  {
    forall a ensures multiset(x)[a] == multiset(y)[a] {
      CountOnce(x, a);
      CountOnce(y, a);
    }
  }

  lemma {:induction false} CountOnce(s: seq<string>, a: string)
    requires forall i, j :: 0 <= i < j < |s| ==> s[i] != s[j]
    ensures multiset(s)[a] == if a in s then 1 else 0
  {
    if s != [] {
      assert s == [s[0]] + s[1..];
      CountOnce(s[1..], a);
    }
  }

  /** Two texts that describe one index are the same text. */
  lemma DescriptionUnique(x: string, y: string, index: Index)
    requires Describes(x, index) && Describes(y, index)
    ensures x == y
  {
    var lx, ox, ex :| Labels(lx, index) && Lists(ox, lx.Keys) && Sorted(ex)
                      && multiset(ex) == multiset(EntryTexts(lx, ox)) && x == Join(ex, ", ");
    var ly, oy, ey :| Labels(ly, index) && Lists(oy, ly.Keys) && Sorted(ey)
                      && multiset(ey) == multiset(EntryTexts(ly, oy)) && y == Join(ey, ", ");
    LabelsUnique(lx, ly, index);
    SameListing(ox, oy, lx.Keys);
    TextsOfPermutation(lx, ox, oy);
    SortedUnique(ex, ey);
  }

  // ----- the two loops -----

  lemma OneMoreLabel(labels: map<string, string>, seen: Index, name: string, addr: string)
    requires Labels(labels, seen) && name !in seen
    ensures Labels(if addr !in labels || LessEq(name, labels[addr]) then labels[addr := name] else labels, seen[name := addr])
  {
    var seen' := seen[name := addr];
    var labels' := if addr !in labels || LessEq(name, labels[addr]) then labels[addr := name] else labels;
    forall a | a in labels' ensures LeastName(seen', a, labels'[a]) {
      if a != addr {
        assert LeastName(seen, a, labels[a]);
      } else {
        Total(name, name);
        forall n | n in seen' && seen'[n] == a ensures LessEq(labels'[a], n) {
          if n != name {
            assert seen[n] in labels && LeastName(seen, a, labels[a]);
            if LessEq(name, labels[a]) {
              Transitive(name, labels[a], n);
            }
          } else if addr in labels {
            Total(name, labels[a]);
          }
        }
        if addr in labels {
          assert LeastName(seen, a, labels[a]);
        }
      }
    }
  }

  method LabelAddresses(backends: Index) returns (labels: map<string, string>)
    ensures Labels(labels, backends)
  {
    labels := map[];
    var todo := backends;
    ghost var seen: Index := map[];
    while todo.Keys != {}
      invariant Labels(labels, seen)
      invariant forall n :: n in backends <==> n in todo || n in seen
      invariant forall n :: n in todo ==> n !in seen && n in backends && todo[n] == backends[n]
      invariant forall n :: n in seen ==> n in backends && seen[n] == backends[n]
      decreases todo.Keys
    {
      var name :| name in todo.Keys;
      var addr := todo[name];
      OneMoreLabel(labels, seen, name, addr);
      Strict(labels, name, addr);
      if addr !in labels || (LessEq(name, labels[addr]) && name != labels[addr]) {
        labels := labels[addr := name];
      }
      seen := seen[name := addr];
      todo := todo - {name};
    }
    assert seen == backends;
  }

  /** The code compares strictly; replacing a label by itself changes nothing. */
  lemma Strict(labels: map<string, string>, name: string, addr: string)
    ensures addr in labels && name == labels[addr] ==> labels[addr := name] == labels
  {
  }

  lemma DescribesBy(labels: map<string, string>, order: seq<string>, entries: seq<string>, index: Index)
    requires Labels(labels, index) && Lists(order, labels.Keys)
    requires Sorted(entries) && multiset(entries) == multiset(EntryTexts(labels, order))
    ensures Describes(Join(entries, ", "), index)
  {
  }

  lemma OneMoreAddress(labels: map<string, string>, order: seq<string>, done: set<string>, addr: string)
    requires Lists(order, done) && addr !in done
    ensures Lists(order + [addr], done + {addr})
    ensures multiset(EntryTexts(labels, order + [addr]))
            == multiset(EntryTexts(labels, order)) + multiset{EntryText(labels, addr)}
  {
    PullOut(labels, order + [addr], |order|);
    assert (order + [addr])[..|order|] + (order + [addr])[|order| + 1..] == order;
  }

  method DescribeBackendBinds(backends: Index) returns (text: string)
    ensures Describes(text, backends)
  {
    var labels := LabelAddresses(backends);
    var entries: seq<string> := [];
    hide Labels;
    var todo := labels;
    ghost var order: seq<string> := [];
    ghost var done: set<string> := {};
    assert EntryTexts(labels, order) == [] && Lists(order, done);
    hide EntryTexts, Sorted, Describes, Lists;
    while todo.Keys != {}
      invariant todo.Keys <= labels.Keys && forall a :: a in todo ==> todo[a] == labels[a]
      invariant Lists(order, done) && done == labels.Keys - todo.Keys
      invariant multiset(entries) == multiset(EntryTexts(labels, order))
      decreases todo.Keys
    {
      var addr :| addr in todo.Keys;
      entries := entries + [todo[addr] + "=" + addr];
      OneMoreAddress(labels, order, done, addr);
      order, done := order + [addr], done + {addr};
      todo := todo - {addr};
    }
    SortSorts(entries);
    assert done == labels.Keys;
    text := Join(SortStrings(entries), ", ");
    DescribesBy(labels, order, SortStrings(entries), backends);
  }

  /** Two backends, one of them stored under two spellings: each entry is name, equals sign,
      address; upper case sorts before lower case and names an address first. */
  lemma TwoBackendsAre()
    ensures Describes("Lobby=y, hub=x", map["hub" := "x", "Lobby" := "y", "lobby" := "y"])
  {
    var index := map["hub" := "x", "Lobby" := "y", "lobby" := "y"];
    var labels := map["x" := "hub", "y" := "Lobby"];
    assert LessEq("Lobby", "lobby") && LessEq("Lobby", "Lobby") && LessEq("hub", "hub") by {
      Total("Lobby", "Lobby");
      Total("hub", "hub");
    }
    assert LeastName(index, "x", "hub") && LeastName(index, "y", "Lobby");
    assert Labels(labels, index);
    var order, entries := ["y", "x"], ["Lobby=y", "hub=x"];
    assert Lists(order, labels.Keys);
    assert EntryText(labels, "y") == "Lobby=y" && EntryText(labels, "x") == "hub=x";
    assert order[1..] == ["x"] && order[1..][1..] == [];
    assert EntryTexts(labels, order) == entries;
    assert LessEq("Lobby=y", "hub=x");
    assert Sorted(entries);
    assert entries[1..] == ["hub=x"];
    assert Join(entries, ", ") == "Lobby=y, hub=x";
    DescribesBy(labels, order, entries, index);
  }
}
