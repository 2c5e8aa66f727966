/** The embedder's addresses (Options.ReserveLoopbackAddress): who holds each one, and
    when it is given back. None of this needs hypothesis H. */
module ProtocolLedger {
  import opened Names
  import opened Aliases
  import opened Registry
  import opened Protocol
  import opened ProtocolInv
  import opened ProtocolChildren

  predicate Fired(s: State, d: Add) {
    d.token.Some? && d.token.value in s.fired
  }

  predicate Settled(s: State, d: Add) {
    d.token.None? || d.token.value in s.fired
  }

  predicate AfterStop(p: Phase) {
    p.LeavePending? || p.DropReservation? || p.ReturnAddress?
  }

  predicate InPendingMap(s: State, a: nat, d: Add) {
    Get(s.maps.pending, d.key) == Some(ProcOf(a, d))
  }

  predicate InDynamicMap(s: State, a: nat, d: Add) {
    Get(s.maps.dynamic, d.key) == Some(ProcOf(a, d))
  }

  /** Where the token of one add stands. */
  predicate Account(s: State, a: nat, d: Add) {
    && (d.phase.LeavePending? || d.phase.DropMark? || d.phase.Failed? ==> Settled(s, d))
    && (d.phase.Admitted? ==> d.token.None?)
    && (d.phase.Reserved? ==> !Fired(s, d))
    && (BeforeLaunch(d.phase) ==> a !in s.children && a !in s.owed)
    && (a in s.children && (Fired(s, d) || AfterStop(d.phase)) ==> Stopped(s, a))
    && (InPendingMap(s, a, d) ==> a !in s.owed && (d.phase.LeavePending? || !Fired(s, d)))
    && (InDynamicMap(s, a, d) ==> a !in s.owed && !Fired(s, d))
    && (a in s.selfExited ==> d.phase.Published? && !Fired(s, d) && a !in s.owed && !InDynamicMap(s, a, d))
  }

  ghost predicate Accounts(s: State) {
    forall a :: a in s.adds ==> Account(s, a, s.adds[a])
  }

  ghost predicate HasToken(s: State, t: nat) {
    exists a :: a in s.adds && s.adds[a].token == Some(t)
  }

  /** Every address taken is with the embedder again or with exactly one add. */
  ghost predicate Tokens(s: State) {
    && s.releases == multiset(s.fired)
    && (forall t :: t in s.fired ==> t < s.tokens)
    && (forall a :: a in s.adds && s.adds[a].token.Some? ==> s.adds[a].token.value < s.tokens)
    && (forall a, b :: a in s.adds && b in s.adds && a != b && s.adds[a].token.Some? ==> s.adds[a].token != s.adds[b].token)
    && (forall t :: 0 <= t < s.tokens ==> t in s.fired || HasToken(s, t))
  }

  ghost predicate Ledger(s: State) {
    && Entries(s.maps, s.adds)
    && s.owed <= s.adds.Keys && s.selfExited <= s.adds.Keys && s.children.Keys <= s.adds.Keys
    && Accounts(s) && Tokens(s)
  }

  // ----- tokens -----

  lemma TokensSame(s: State, t: State)
    requires Tokens(s) && t.tokens == s.tokens && t.fired == s.fired && t.releases == s.releases
    requires t.adds.Keys == s.adds.Keys && forall a :: a in s.adds ==> t.adds[a].token == s.adds[a].token
    ensures Tokens(t)
  {
    forall k | 0 <= k < t.tokens ensures k in t.fired || HasToken(t, k) {
      if k !in s.fired {
        var a :| a in s.adds && s.adds[a].token == Some(k);
        assert t.adds[a].token == Some(k);
      }
    }
  }

  lemma TokensAdmit(s: State, t: State, a: nat, d: Add)
    requires Tokens(s) && t.tokens == s.tokens && t.fired == s.fired && t.releases == s.releases
    requires a !in s.adds && t.adds == s.adds[a := d] && d.token.None?
    ensures Tokens(t)
  {
    forall k | 0 <= k < t.tokens ensures k in t.fired || HasToken(t, k) {
      if k !in s.fired {
        var b :| b in s.adds && s.adds[b].token == Some(k);
        assert t.adds[b].token == Some(k);
      }
    }
  }

  lemma TokensRelease(s: State, d: Add)
    requires Tokens(s) && (d.token.Some? ==> d.token.value < s.tokens)
    ensures Tokens(Release(s, d.token))
  {
    var t := Release(s, d.token);
    forall k | 0 <= k < t.tokens ensures k in t.fired || HasToken(t, k) {
      if k !in s.fired {
        var a :| a in s.adds && s.adds[a].token == Some(k);
        assert t.adds[a].token == Some(k);
      }
    }
  }

  lemma TokensTake(s: State, t: State, a: nat, n: nat, kept: bool)
    requires Tokens(s) && a in s.adds && s.adds[a].token.None? && a in t.adds && (kept ==> n > 0)
    requires t.adds == s.adds[a := t.adds[a]] && t.tokens == s.tokens + n
    requires t.adds[a].token == if kept then Some(s.tokens + n - 1) else None
    requires var conflicts := Range(s.tokens, s.tokens + if kept then n - 1 else n);
             t.fired == s.fired + conflicts && t.releases == s.releases + multiset(conflicts)
    ensures Tokens(t)
  {
    assert t.releases == multiset(t.fired);
    forall k | 0 <= k < t.tokens ensures k in t.fired || HasToken(t, k) {
      if k < s.tokens && k !in s.fired {
        var b :| b in s.adds && s.adds[b].token == Some(k);
        assert t.adds[b].token == Some(k);
      } else if k >= s.tokens && k !in t.fired {
        assert t.adds[a].token == Some(k);
      }
    }
  }

  predicate Kept(c: Config, s: State, a: nat, answers: seq<Answer>)
    requires a in s.adds && answers != []
  {
    c.hook && Accepts(s.maps, s.adds[a].key, answers[|answers| - 1])
  }

  function Asked(c: Config, answers: seq<Answer>): nat
    requires answers != []
  {
    if c.hook then TokensTaken(answers) else 0
  }

  lemma KeptWasAsked(c: Config, s: State, a: nat, answers: seq<Answer>)
    requires a in s.adds && answers != [] && Kept(c, s, a, answers)
    ensures Asked(c, answers) > 0
  {
  }

  lemma ReserveTokens(c: Config, s: State, a: nat, answers: seq<Answer>)
    requires At(s, a, Admitted) && s.adds[a].token.None? && answers != []
    requires Kept(c, s, a, answers) ==> Asked(c, answers) > 0
    ensures var t, n, kept := ReserveEffect(c, s, a, answers), Asked(c, answers), Kept(c, s, a, answers);
            && t.adds == s.adds[a := t.adds[a]] && t.tokens == s.tokens + n
            && t.adds[a].token == if kept then Some(s.tokens + n - 1) else None
  {
    hide Accepts, TokensTaken, Range;
  }

  lemma ReserveFires(c: Config, s: State, a: nat, answers: seq<Answer>)
    requires At(s, a, Admitted) && s.adds[a].token.None? && answers != []
    requires Kept(c, s, a, answers) ==> Asked(c, answers) > 0
    ensures var t, n, kept := ReserveEffect(c, s, a, answers), Asked(c, answers), Kept(c, s, a, answers);
            var conflicts := Range(s.tokens, s.tokens + if kept then n - 1 else n);
            t.fired == s.fired + conflicts && t.releases == s.releases + multiset(conflicts)
  {
    var last := answers[|answers| - 1];
    assert Accepts(s.maps, s.adds[a].key, last) ==> TokensTaken(answers) > 0;
    hide Accepts, TokensTaken, Range;
  }

  lemma TokensReserve(c: Config, s: State, a: nat, answers: seq<Answer>)
    requires Tokens(s) && At(s, a, Admitted) && s.adds[a].token.None? && answers != []
    ensures Tokens(ReserveEffect(c, s, a, answers))
  {
    assert a in s.adds;
    hide *;
    if Kept(c, s, a, answers) {
      KeptWasAsked(c, s, a, answers);
    }
    ReserveTokens(c, s, a, answers);
    ReserveFires(c, s, a, answers);
    TokensTake(s, ReserveEffect(c, s, a, answers), a, Asked(c, answers), Kept(c, s, a, answers));
  }

  /** After the loop only the returned address is outstanding, or none at all; every
      conflicting one went back. */
  lemma OnlyReturnedOutstanding(c: Config, s: State, a: nat, answers: seq<Answer>, k: nat)
    requires Tokens(s) && At(s, a, Admitted) && s.adds[a].token.None? && answers != []
    requires s.tokens <= k < ReserveEffect(c, s, a, answers).tokens
    ensures var t := ReserveEffect(c, s, a, answers); k in t.fired <==> t.adds[a].token != Some(k)
  {
    if Kept(c, s, a, answers) {
      KeptWasAsked(c, s, a, answers);
    }
    ReserveTokens(c, s, a, answers);
    ReserveFires(c, s, a, answers);
    hide ReserveEffect, Asked, Kept;
  }

  // ----- accounts -----

  predicate NoNewEntry(s: State, t: State, b: nat)
    requires b in s.adds
  {
    && (InPendingMap(t, b, s.adds[b]) ==> InPendingMap(s, b, s.adds[b]))
    && (InDynamicMap(t, b, s.adds[b]) ==> InDynamicMap(s, b, s.adds[b]))
  }

  predicate SameAccount(s: State, t: State, b: nat)
    requires b in s.adds
  {
    && Fired(t, s.adds[b]) == Fired(s, s.adds[b])
    && (b in t.children) == (b in s.children)
    && (Stopped(s, b) ==> Stopped(t, b))
    && (b in t.owed) == (b in s.owed)
    && (b in t.selfExited) == (b in s.selfExited)
    && NoNewEntry(s, t, b)
  }

  lemma AccountsMove(s: State, t: State, a: nat)
    requires Accounts(s) && a in t.adds && (a in s.adds ==> t.adds == s.adds[a := t.adds[a]])
    requires a !in s.adds ==> t.adds == s.adds[a := t.adds[a]]
    requires forall b :: b in s.adds && b != a ==> SameAccount(s, t, b)
    requires Account(t, a, t.adds[a])
    ensures Accounts(t)
  {
    forall b | b in t.adds ensures Account(t, b, t.adds[b]) {
      if b != a {
        assert Account(s, b, s.adds[b]) && SameAccount(s, t, b);
      }
    }
  }

  lemma ReleaseIsOwn(s: State, a: nat, b: nat)
    requires Tokens(s) && a in s.adds && b in s.adds && a != b
    ensures Fired(Release(s, s.adds[a].token), s.adds[b]) == Fired(s, s.adds[b])
  {
  }

  lemma LedgerAdmit(c: Config, s: State, a: nat, name: string)
    requires Ledger(s) && Enabled(c, false, s, Admit(a, name))
    ensures Ledger(Apply(c, s, Admit(a, name)))
  {
    var t := Apply(c, s, Admit(a, name));
    TokensAdmit(s, t, a, t.adds[a]);
    AdmitEntries(s.maps, s.adds, a, t.adds[a]);
    assert Accounts(t) by {
      AdmitAccount(c, s, a, name);
      hide Ledger, Tokens, Accounts;
      AccountsMove(s, t, a);
    }
  }

  lemma AdmitAccount(c: Config, s: State, a: nat, name: string)
    requires Ledger(s) && Enabled(c, false, s, Admit(a, name))
    ensures var t := Apply(c, s, Admit(a, name)); Account(t, a, t.adds[a])
  {
  }

  lemma LedgerReserve(c: Config, s: State, a: nat, answers: seq<Answer>)
    requires Ledger(s) && Enabled(c, false, s, ReserveAddress(a, answers))
    ensures Ledger(ReserveEffect(c, s, a, answers))
  {
    var t := ReserveEffect(c, s, a, answers);
    assert Account(s, a, s.adds[a]);
    TokensReserve(c, s, a, answers);
    ReserveAccounts(c, s, a, answers);
    ReserveKeepsEntries(c, s, a, answers);
    hide Accounts, Tokens, Entries;
  }

  lemma ReserveKeepsEntries(c: Config, s: State, a: nat, answers: seq<Answer>)
    requires Entries(s.maps, s.adds) && At(s, a, Admitted) && answers != []
    ensures var t := ReserveEffect(c, s, a, answers); Entries(t.maps, t.adds)
  {
    hide Accepts;
    ReserveEntries(s.maps, s.adds, a, ReserveEffect(c, s, a, answers).adds[a]);
    PhaseKeepsEntries(s.maps, s.adds, a, DropMark(Held));
  }

  lemma ReserveAccounts(c: Config, s: State, a: nat, answers: seq<Answer>)
    requires Ledger(s) && Enabled(c, false, s, ReserveAddress(a, answers))
    ensures Accounts(ReserveEffect(c, s, a, answers))
  {
    var t := ReserveEffect(c, s, a, answers);
    assert Account(s, a, s.adds[a]);
    if Kept(c, s, a, answers) {
      KeptWasAsked(c, s, a, answers);
    }
    ReserveTokens(c, s, a, answers);
    ReserveFires(c, s, a, answers);
    forall b | b in s.adds && b != a ensures SameAccount(s, t, b) {
      assert Fired(t, s.adds[b]) == Fired(s, s.adds[b]);
    }
    ReserveAccount(c, s, a, answers);
    AccountsMove(s, t, a);
  }

  lemma ReserveAccount(c: Config, s: State, a: nat, answers: seq<Answer>)
    requires Ledger(s) && Enabled(c, false, s, ReserveAddress(a, answers))
    ensures var t := ReserveEffect(c, s, a, answers); Account(t, a, t.adds[a])
  {
    var t := ReserveEffect(c, s, a, answers);
    assert Account(s, a, s.adds[a]);
    assert Get(s.maps.pending, s.adds[a].key) != Some(ProcOf(a, t.adds[a]));
  }

  /** A map that only lost entries, or gained one of the add's own. */
  predicate OnlyOwn(m: map<string, Proc>, m': map<string, Proc>, a: nat) {
    forall k :: k in m' ==> Get(m, k) == Some(m'[k]) || m'[k].id == a
  }

  lemma OthersSame(s: State, t: State, a: nat)
    requires t.owed == s.owed && t.selfExited == s.selfExited && t.fired == s.fired
    requires s.unsignalled <= t.unsignalled
    requires s.children.Keys <= t.children.Keys <= s.children.Keys + {a}
    requires forall b :: b != a && b in s.children ==> t.children[b] == s.children[b]
    requires OnlyOwn(s.maps.pending, t.maps.pending, a) && OnlyOwn(s.maps.dynamic, t.maps.dynamic, a)
    ensures forall b :: b in s.adds && b != a ==> SameAccount(s, t, b)
  {
  }

  lemma LedgerMove(s: State, t: State, a: nat)
    requires Ledger(s) && a in s.adds && a in t.adds
    requires t.adds == s.adds[a := t.adds[a]] && t.adds[a].token == s.adds[a].token
    requires t.tokens == s.tokens && t.fired == s.fired && t.releases == s.releases
    requires t.owed == s.owed && t.selfExited == s.selfExited && s.unsignalled <= t.unsignalled
    requires s.children.Keys <= t.children.Keys <= s.children.Keys + {a}
    requires forall b :: b != a && b in s.children ==> t.children[b] == s.children[b]
    requires OnlyOwn(s.maps.pending, t.maps.pending, a) && OnlyOwn(s.maps.dynamic, t.maps.dynamic, a)
    requires Entries(t.maps, t.adds)
    requires Account(t, a, t.adds[a])
    ensures Ledger(t)
  {
    TokensSame(s, t);
    OthersSame(s, t, a);
    hide Tokens, Entries, SameAccount, Account, OnlyOwn;
    AccountsMove(s, t, a);
  }

  lemma ReleaseTokens(s: State, t: State, a: nat)
    requires Tokens(s) && a in s.adds && a in t.adds
    requires t.adds == s.adds[a := t.adds[a]] && t.adds[a].token == s.adds[a].token
    requires var r := Release(s, s.adds[a].token); t.tokens == r.tokens && t.fired == r.fired && t.releases == r.releases
    ensures Tokens(t)
  {
    TokensRelease(s, s.adds[a]);
    hide Tokens;
    TokensSame(Release(s, s.adds[a].token), t);
  }

  lemma ReleaseOthers(s: State, t: State, a: nat)
    requires Tokens(s) && a in s.adds && t.fired == Release(s, s.adds[a].token).fired
    requires t.selfExited == s.selfExited && t.children == s.children && s.unsignalled <= t.unsignalled
    requires t.maps == s.maps && t.owed <= s.owed && s.owed <= t.owed + {a}
    ensures forall b :: b in s.adds && b != a ==> SameAccount(s, t, b)
  {
    forall b | b in s.adds && b != a ensures SameAccount(s, t, b) {
      ReleaseIsOwn(s, a, b);
    }
  }

  lemma ReleaseFrame(s: State, token: Option<nat>)
    ensures var r := Release(s, token); r == s.(fired := r.fired, releases := r.releases)
  {
  }

  lemma LedgerMoveRelease(s: State, t: State, a: nat)
    requires Ledger(s) && a in s.adds && a in t.adds
    requires t.adds == s.adds[a := t.adds[a]] && t.adds[a].token == s.adds[a].token
    requires var r := Release(s, s.adds[a].token); t.tokens == r.tokens && t.fired == r.fired && t.releases == r.releases
    requires t.owed <= s.owed && s.owed <= t.owed + {a}
    requires t.selfExited == s.selfExited && t.children == s.children
    requires s.unsignalled <= t.unsignalled && t.maps == s.maps
    requires Entries(t.maps, t.adds)
    requires Account(t, a, t.adds[a])
    ensures Ledger(t)
  {
    ReleaseTokens(s, t, a);
    ReleaseOthers(s, t, a);
    hide Tokens, Entries, SameAccount, Account, Release;
    AccountsMove(s, t, a);
  }

  lemma LedgerStill(s: State, t: State)
    requires Ledger(s) && t.adds == s.adds
    requires t.tokens == s.tokens && t.fired == s.fired && t.releases == s.releases
    requires t.owed <= t.adds.Keys && t.selfExited <= t.adds.Keys && t.children.Keys <= t.adds.Keys
    requires Entries(t.maps, t.adds) && Accounts(t)
    ensures Ledger(t)
  {
    TokensSame(s, t);
  }

  lemma FailConfigAccount(c: Config, s: State, a: nat)
    requires Ledger(s) && Enabled(c, false, s, FailConfig(a))
    ensures var t := Apply(c, s, FailConfig(a)); Account(t, a, t.adds[a])
  {
    assert Account(s, a, s.adds[a]);
    hide Accounts, Tokens;
  }

  lemma LedgerFailConfig(c: Config, s: State, a: nat)
    requires Ledger(s) && Enabled(c, false, s, FailConfig(a))
    ensures Ledger(Apply(c, s, FailConfig(a)))
  {
    var t := Apply(c, s, FailConfig(a));
    FailConfigAccount(c, s, a);
    PhaseKeepsEntries(s.maps, s.adds, a, t.adds[a].phase);
    hide Ledger, Account, Entries;
    LedgerMove(s, t, a);
  }

  lemma EndWaitAccount(c: Config, s: State, a: nat, ready: bool)
    requires Ledger(s) && Enabled(c, false, s, EndWait(a, ready))
    ensures var t := Apply(c, s, EndWait(a, ready)); Account(t, a, t.adds[a])
  {
    assert Account(s, a, s.adds[a]);
    hide Accounts, Tokens;
  }

  lemma LedgerEndWait(c: Config, s: State, a: nat, ready: bool)
    requires Ledger(s) && Enabled(c, false, s, EndWait(a, ready))
    ensures Ledger(Apply(c, s, EndWait(a, ready)))
  {
    var t := Apply(c, s, EndWait(a, ready));
    EndWaitAccount(c, s, a, ready);
    PhaseKeepsEntries(s.maps, s.adds, a, t.adds[a].phase);
    hide Ledger, Account, Entries;
    LedgerMove(s, t, a);
  }

  lemma CheckOwnerAccount(c: Config, s: State, a: nat, known: bool)
    requires Ledger(s) && Enabled(c, false, s, CheckOwner(a, known))
    ensures var t := Apply(c, s, CheckOwner(a, known)); Account(t, a, t.adds[a])
  {
    assert Account(s, a, s.adds[a]);
    hide Accounts, Tokens;
  }

  lemma LedgerCheckOwner(c: Config, s: State, a: nat, known: bool)
    requires Ledger(s) && Enabled(c, false, s, CheckOwner(a, known))
    ensures Ledger(Apply(c, s, CheckOwner(a, known)))
  {
    var t := Apply(c, s, CheckOwner(a, known));
    CheckOwnerAccount(c, s, a, known);
    PhaseKeepsEntries(s.maps, s.adds, a, t.adds[a].phase);
    hide Ledger, Account, Entries;
    LedgerMove(s, t, a);
  }

  /** The end of an add's own stop: the child is reaped or could not be signalled, the
      address is released, and the maps are as they were. */
  lemma StopFrame(c: Config, s: State, a: nat, signalled: bool)
    requires Enabled(c, false, s, FinishOwnStop(a, signalled))
    ensures var t := Apply(c, s, FinishOwnStop(a, signalled));
            && t.maps == s.maps && t.children == s.children && t.owed == s.owed && t.selfExited == s.selfExited
            && Stopped(t, a) && a in t.adds
            && t.adds[a] == s.adds[a].(phase := if s.adds[a].phase.StopPending? then LeavePending else DropReservation(Gone))
            && Settled(t, t.adds[a])
  {
  }

  lemma StopPendingAccount(c: Config, s: State, a: nat, signalled: bool)
    requires Ledger(s) && At(s, a, StopPending) && Enabled(c, false, s, FinishOwnStop(a, signalled))
    ensures var t := Apply(c, s, FinishOwnStop(a, signalled)); Account(t, a, t.adds[a])
  {
    assert Account(s, a, s.adds[a]) && !InDynamicMap(s, a, s.adds[a]);
    StopFrame(c, s, a, signalled);
    hide Accounts, Tokens, Entries, Apply, Enabled;
  }

  lemma StopUnpublishedAccount(c: Config, s: State, a: nat, signalled: bool)
    requires Ledger(s) && At(s, a, StopUnpublished) && Enabled(c, false, s, FinishOwnStop(a, signalled))
    ensures var t := Apply(c, s, FinishOwnStop(a, signalled)); Account(t, a, t.adds[a])
  {
    assert Account(s, a, s.adds[a]) && !InDynamicMap(s, a, s.adds[a]) && !InPendingMap(s, a, s.adds[a]);
    StopFrame(c, s, a, signalled);
    hide Accounts, Tokens, Entries, Apply, Enabled;
  }

  lemma FinishOwnStopAccount(c: Config, s: State, a: nat, signalled: bool)
    requires Ledger(s) && Enabled(c, false, s, FinishOwnStop(a, signalled))
    ensures var t := Apply(c, s, FinishOwnStop(a, signalled)); Account(t, a, t.adds[a])
  {
    assert At(s, a, StopPending) || At(s, a, StopUnpublished);
    hide Ledger, Account, Apply;
    if At(s, a, StopPending) {
      StopPendingAccount(c, s, a, signalled);
    } else {
      StopUnpublishedAccount(c, s, a, signalled);
    }
  }

  lemma LedgerFinishOwnStop(c: Config, s: State, a: nat, signalled: bool)
    requires Ledger(s) && Enabled(c, false, s, FinishOwnStop(a, signalled))
    ensures Ledger(Apply(c, s, FinishOwnStop(a, signalled)))
  {
    var t := Apply(c, s, FinishOwnStop(a, signalled));
    FinishOwnStopAccount(c, s, a, signalled);
    PhaseKeepsEntries(s.maps, s.adds, a, t.adds[a].phase);
    ReleaseFrame(s, s.adds[a].token);
    hide Ledger, Account, Entries, Release;
    LedgerMoveRelease(s, t, a);
  }

  lemma LeavePendingMapAccount(c: Config, s: State, a: nat)
    requires Ledger(s) && Enabled(c, false, s, LeavePendingMap(a))
    ensures var t := Apply(c, s, LeavePendingMap(a)); Account(t, a, t.adds[a])
  {
    assert Account(s, a, s.adds[a]);
    hide Accounts, Tokens;
  }

  lemma LedgerLeavePendingMap(c: Config, s: State, a: nat)
    requires Ledger(s) && Enabled(c, false, s, LeavePendingMap(a))
    ensures Ledger(Apply(c, s, LeavePendingMap(a)))
  {
    var t := Apply(c, s, LeavePendingMap(a));
    LeavePendingMapAccount(c, s, a);
    DropPendingEntries(s.maps, s.adds, a, DropReservation(Gone));
    hide Ledger, Account, Entries;
    LedgerMove(s, t, a);
  }

  lemma UnreservingAccount(c: Config, s: State, a: nat)
    requires Ledger(s) && Enabled(c, false, s, Unreserving(a))
    ensures var t := Apply(c, s, Unreserving(a)); Account(t, a, t.adds[a])
  {
    assert Account(s, a, s.adds[a]);
    hide Accounts, Tokens;
  }

  lemma LedgerUnreserving(c: Config, s: State, a: nat)
    requires Ledger(s) && Enabled(c, false, s, Unreserving(a))
    ensures Ledger(Apply(c, s, Unreserving(a)))
  {
    var t := Apply(c, s, Unreserving(a));
    UnreservingAccount(c, s, a);
    UnreserveEntries(s.maps, s.adds, a, t.adds[a].phase);
    hide Ledger, Account, Entries;
    LedgerMove(s, t, a);
  }

  lemma ReleasingAccount(c: Config, s: State, a: nat)
    requires Ledger(s) && Enabled(c, false, s, Releasing(a))
    ensures var t := Apply(c, s, Releasing(a)); Account(t, a, t.adds[a])
  {
    assert Account(s, a, s.adds[a]);
    assert !InDynamicMap(s, a, s.adds[a]);
    assert !InPendingMap(s, a, s.adds[a]);
    hide Accounts, Tokens, Entries;
    var t := Apply(c, s, Releasing(a));
    assert !InPendingMap(t, a, t.adds[a]) && !InDynamicMap(t, a, t.adds[a]);
    hide InPendingMap, InDynamicMap;
  }

  lemma LedgerReleasing(c: Config, s: State, a: nat)
    requires Ledger(s) && Enabled(c, false, s, Releasing(a))
    ensures Ledger(Apply(c, s, Releasing(a)))
  {
    var t := Apply(c, s, Releasing(a));
    ReleasingAccount(c, s, a);
    PhaseKeepsEntries(s.maps, s.adds, a, t.adds[a].phase);
    ReleaseFrame(s, s.adds[a].token);
    hide Ledger, Account, Entries, Release;
    LedgerMoveRelease(s, t, a);
  }

  lemma UnmarkingAccount(c: Config, s: State, a: nat)
    requires Ledger(s) && Enabled(c, false, s, Unmarking(a))
    ensures var t := Apply(c, s, Unmarking(a)); Account(t, a, t.adds[a])
  {
    assert Account(s, a, s.adds[a]);
    hide Accounts, Tokens;
  }

  lemma LedgerUnmarking(c: Config, s: State, a: nat)
    requires Ledger(s) && Enabled(c, false, s, Unmarking(a))
    ensures Ledger(Apply(c, s, Unmarking(a)))
  {
    var t := Apply(c, s, Unmarking(a));
    UnmarkingAccount(c, s, a);
    UnmarkEntries(s.maps, s.adds, a, Failed);
    hide Ledger, Account, Entries;
    LedgerMove(s, t, a);
  }

  lemma NotLaunchedAccount(c: Config, s: State, a: nat, spawned: bool)
    requires Ledger(s) && At(s, a, Reserved) && !(s.healthy && spawned)
    ensures var t := LaunchEffect(s, a, spawned); Account(t, a, t.adds[a])
  {
    assert Account(s, a, s.adds[a]);
    hide Accounts, Tokens;
  }

  lemma LedgerNotLaunched(c: Config, s: State, a: nat, spawned: bool)
    requires Ledger(s) && At(s, a, Reserved) && !(s.healthy && spawned)
    ensures Ledger(LaunchEffect(s, a, spawned))
  {
    var t := LaunchEffect(s, a, spawned);
    NotLaunchedAccount(c, s, a, spawned);
    UnmarkEntries(s.maps, s.adds, a, t.adds[a].phase);
    hide Ledger, Account, Entries;
    LedgerMove(s, t, a);
  }

  lemma SpawnedAccount(c: Config, s: State, a: nat)
    requires Ledger(s) && At(s, a, Reserved) && s.healthy
    ensures var t := LaunchEffect(s, a, true); Account(t, a, t.adds[a])
  {
    assert Account(s, a, s.adds[a]);
    assert !InDynamicMap(s, a, s.adds[a]);
    hide Accounts, Tokens;
  }

  lemma LedgerSpawned(c: Config, s: State, a: nat)
    requires Ledger(s) && At(s, a, Reserved) && s.healthy
    ensures Ledger(LaunchEffect(s, a, true))
  {
    var t := LaunchEffect(s, a, true);
    SpawnedAccount(c, s, a);
    GoPendingEntries(s.maps, s.adds, a);
    hide Ledger, Account, Entries;
    LedgerMove(s, t, a);
  }

  lemma PublishingAccount(c: Config, s: State, a: nat)
    requires Ledger(s) && At(s, a, Owned) && s.healthy && InPendingMap(s, a, s.adds[a])
    ensures var t := PublishEffect(s, a); Account(t, a, t.adds[a])
  {
    assert Account(s, a, s.adds[a]);
    hide Accounts, Tokens;
  }

  lemma LedgerPublished(c: Config, s: State, a: nat)
    requires Ledger(s) && At(s, a, Owned) && s.healthy && InPendingMap(s, a, s.adds[a])
    ensures Ledger(PublishEffect(s, a))
  {
    var t := PublishEffect(s, a);
    PublishingAccount(c, s, a);
    PublishEntries(s.maps, s.adds, a);
    hide Ledger, Account, Entries;
    LedgerMove(s, t, a);
  }

  lemma RefusedAccount(c: Config, s: State, a: nat)
    requires Ledger(s) && At(s, a, Owned) && !s.healthy
    ensures var t := PublishEffect(s, a); Account(t, a, t.adds[a])
  {
    assert Account(s, a, s.adds[a]);
    assert !InDynamicMap(s, a, s.adds[a]);
    hide Accounts, Tokens;
  }

  lemma LedgerRefused(c: Config, s: State, a: nat)
    requires Ledger(s) && At(s, a, Owned) && !s.healthy
    ensures Ledger(PublishEffect(s, a))
  {
    var t := PublishEffect(s, a);
    RefusedAccount(c, s, a);
    DropPendingEntries(s.maps, s.adds, a, StopUnpublished);
    hide Ledger, Account, Entries;
    LedgerMove(s, t, a);
  }

  lemma DisplacedAccount(c: Config, s: State, a: nat)
    requires Ledger(s) && At(s, a, Owned) && s.healthy && !InPendingMap(s, a, s.adds[a])
    ensures var t := PublishEffect(s, a); Account(t, a, t.adds[a])
  {
    assert Account(s, a, s.adds[a]);
    assert !InDynamicMap(s, a, s.adds[a]);
    hide Accounts, Tokens;
  }

  lemma LedgerDisplaced(c: Config, s: State, a: nat)
    requires Ledger(s) && At(s, a, Owned) && s.healthy && !InPendingMap(s, a, s.adds[a])
    ensures Ledger(PublishEffect(s, a))
  {
    var t := PublishEffect(s, a);
    DisplacedAccount(c, s, a);
    DropPendingEntries(s.maps, s.adds, a, StopUnpublished);
    hide Ledger, Account, Entries;
    LedgerMove(s, t, a);
  }

  lemma FinishStopAccount(c: Config, s: State, a: nat, signalled: bool)
    requires Ledger(s) && Enabled(c, false, s, FinishStop(a, signalled))
    ensures var t := Apply(c, s, FinishStop(a, signalled)); Account(t, a, t.adds[a])
  {
    assert Account(s, a, s.adds[a]);
    hide Accounts, Tokens, Entries;
  }

  lemma FinishStopShape(c: Config, s: State, a: nat, signalled: bool)
    requires Enabled(c, false, s, FinishStop(a, signalled))
    ensures var t, r := Apply(c, s, FinishStop(a, signalled)), Release(s, s.adds[a].token);
            && t.tokens == r.tokens && t.fired == r.fired && t.releases == r.releases
            && t.maps == s.maps && t.adds == s.adds && t.children == s.children && t.selfExited == s.selfExited
            && t.owed == s.owed - {a} && s.unsignalled <= t.unsignalled
  {
    ReleaseFrame(s, s.adds[a].token);
    ReleaseFrame(s.(owed := s.owed - {a}), s.adds[a].token);
  }

  lemma LedgerFinishStop(c: Config, s: State, a: nat, signalled: bool)
    requires Ledger(s) && Enabled(c, false, s, FinishStop(a, signalled))
    ensures Ledger(Apply(c, s, FinishStop(a, signalled)))
  {
    var t := Apply(c, s, FinishStop(a, signalled));
    FinishStopAccount(c, s, a, signalled);
    LedgerEntries(s);
    FinishStopShape(c, s, a, signalled);
    hide Ledger, Account, Entries, Release, Apply;
    LedgerMoveRelease(s, t, a);
  }

  lemma LedgerEntries(s: State)
    requires Ledger(s)
    ensures Entries(s.maps, s.adds)
  {
  }

  lemma RemoveAccount(s: State, t: State, key: string, b: nat)
    requires Entries(s.maps, s.adds) && Accounts(s) && b in s.adds && key in s.maps.dynamic
    requires t.adds == s.adds && t.children == s.children && t.unsignalled == s.unsignalled
    requires t.fired == s.fired && t.selfExited == s.selfExited && t.owed == s.owed + {s.maps.dynamic[key].id}
    requires t.maps.pending == s.maps.pending && t.maps.dynamic == s.maps.dynamic - {key}
    ensures Account(t, b, s.adds[b])
  {
    assert Account(s, b, s.adds[b]);
    hide Accounts;
  }

  lemma RemoveAccounts(c: Config, s: State, spelling: string)
    requires Ledger(s) && Enabled(c, false, s, Remove(spelling))
    ensures Accounts(Apply(c, s, Remove(spelling)))
  {
    var t := Apply(c, s, Remove(spelling));
    RemoveFrame(c, s, spelling);
    forall b | b in t.adds ensures Account(t, b, t.adds[b]) {
      RemoveAccount(s, t, LookupName(spelling), b);
    }
  }

  lemma LedgerRemove(c: Config, s: State, spelling: string)
    requires Ledger(s) && Enabled(c, false, s, Remove(spelling))
    ensures Ledger(Apply(c, s, Remove(spelling)))
  {
    var t, key := Apply(c, s, Remove(spelling)), LookupName(spelling);
    UnpublishEntries(s.maps, s.adds, key);
    RemoveAccounts(c, s, spelling);
    hide Accounts, Tokens;
    LedgerStill(s, t);
  }

  lemma WatchAccounts(s: State, a: nat)
    requires Ledger(s) && At(s, a, Published) && ChildOfAdd(s, a) == Some(Reaped)
    ensures Accounts(WatchEffect(s, a))
  {
    var t := WatchEffect(s, a);
    assert !InPendingMap(s, a, s.adds[a]);
    forall b | b in t.adds ensures Account(t, b, t.adds[b]) {
      assert Account(s, b, s.adds[b]);
    }
  }

  lemma WatchEntries(s: State, a: nat)
    requires Entries(s.maps, s.adds) && At(s, a, Published)
    ensures Entries(WatchEffect(s, a).maps, s.adds)
  {
    assert !InPendingMap(s, a, s.adds[a]);
    if InDynamicMap(s, a, s.adds[a]) {
      UnpublishEntries(s.maps, s.adds, s.adds[a].key);
    }
  }

  lemma LedgerWatch(c: Config, s: State, a: nat)
    requires Ledger(s) && Enabled(c, false, s, WatchExit(a))
    ensures Ledger(Apply(c, s, WatchExit(a)))
  {
    var t := Apply(c, s, WatchExit(a));
    WatchAccounts(s, a);
    WatchEntries(s, a);
    hide Accounts, Tokens, Entries;
    LedgerStill(s, t);
  }

  lemma TeardownFrame(c: Config, s: State)
    requires Enabled(c, false, s, Teardown)
    ensures var t := Apply(c, s, Teardown);
            && t.adds == s.adds && t.children == s.children && t.unsignalled == s.unsignalled
            && t.fired == s.fired && t.selfExited == s.selfExited && t.owed == s.owed + Taken(s.maps)
            && t.maps.pending == map[] && t.maps.dynamic == map[]
  {
  }

  lemma TeardownAccount(s: State, t: State, b: nat)
    requires Entries(s.maps, s.adds) && Accounts(s) && b in s.adds
    requires t.adds == s.adds && t.children == s.children && t.unsignalled == s.unsignalled
    requires t.fired == s.fired && t.selfExited == s.selfExited && t.owed == s.owed + Taken(s.maps)
    requires t.maps.pending == map[] && t.maps.dynamic == map[]
    ensures Account(t, b, s.adds[b])
  {
    assert Account(s, b, s.adds[b]);
    assert b in Taken(s.maps) ==> InPendingMap(s, b, s.adds[b]) || InDynamicMap(s, b, s.adds[b]);
    hide Accounts, Taken;
  }

  lemma TeardownAccounts(c: Config, s: State)
    requires Ledger(s) && Enabled(c, false, s, Teardown)
    ensures Accounts(Apply(c, s, Teardown))
  {
    var t := Apply(c, s, Teardown);
    TeardownFrame(c, s);
    forall b | b in t.adds ensures Account(t, b, t.adds[b]) {
      TeardownAccount(s, t, b);
    }
  }

  lemma TakenAreAdds(s: State)
    requires Entries(s.maps, s.adds)
    ensures Taken(s.maps) <= s.adds.Keys
  {
  }

  lemma LedgerTeardown(c: Config, s: State)
    requires Ledger(s) && Enabled(c, false, s, Teardown)
    ensures Ledger(Apply(c, s, Teardown))
  {
    TakenAreAdds(s);
    TeardownAccounts(c, s);
    hide Accounts, Tokens, Taken;
    LedgerStill(s, Apply(c, s, Teardown));
  }

  lemma StillAccounts(s: State, t: State)
    requires Accounts(s) && t.adds == s.adds && t.maps == s.maps && t.owed == s.owed
    requires t.selfExited == s.selfExited && t.fired == s.fired && t.unsignalled == s.unsignalled
    requires t.children.Keys == s.children.Keys
    requires forall b :: b in s.children && s.children[b] == Reaped ==> t.children[b] == Reaped
    ensures Accounts(t)
  {
    forall b | b in t.adds ensures Account(t, b, t.adds[b]) {
      assert Account(s, b, s.adds[b]);
    }
  }

  lemma LedgerFlag(c: Config, s: State, step: Step)
    requires Ledger(s) && RuntimeFlag(step) && Enabled(c, false, s, step)
    ensures Ledger(Apply(c, s, step))
  {
    var t := Apply(c, s, step);
    hide Accounts, Tokens;
    StillAccounts(s, t);
    LedgerStill(s, t);
  }

  lemma LedgerOutside(c: Config, s: State, step: Step)
    requires Ledger(s) && Outside(step) && Enabled(c, false, s, step)
    ensures Ledger(Apply(c, s, step))
  {
    var t := Apply(c, s, step);
    OutsideFrame(c, s, step);
    OutsideChildren(c, s, step);
    hide Accounts, Tokens, Entries, Apply, Enabled, Outside;
    StillAccounts(s, t);
    LedgerStill(s, t);
  }

  lemma LedgerLaunch(c: Config, s: State, a: nat, spawned: bool)
    requires Ledger(s) && Enabled(c, false, s, Launch(a, spawned))
    ensures Ledger(Apply(c, s, Launch(a, spawned)))
  {
    hide Ledger, LaunchEffect;
    if s.healthy && spawned {
      LedgerSpawned(c, s, a);
    } else {
      LedgerNotLaunched(c, s, a, spawned);
    }
  }

  lemma LedgerTryPublish(c: Config, s: State, a: nat)
    requires Ledger(s) && Enabled(c, false, s, TryPublish(a))
    ensures Ledger(Apply(c, s, TryPublish(a)))
  {
    hide Ledger, PublishEffect;
    if !s.healthy {
      LedgerRefused(c, s, a);
    } else if InPendingMap(s, a, s.adds[a]) {
      LedgerPublished(c, s, a);
    } else {
      LedgerDisplaced(c, s, a);
    }
  }

  lemma LedgerReserveStep(c: Config, s: State, a: nat, answers: seq<Answer>)
    requires Ledger(s) && Enabled(c, false, s, ReserveAddress(a, answers))
    ensures Ledger(Apply(c, s, ReserveAddress(a, answers)))
  {
    hide Ledger, ReserveEffect;
    LedgerReserve(c, s, a, answers);
  }

  /** Every step keeps the ledger, with or without H. */
  lemma LedgerStep(c: Config, s: State, step: Step)
    requires Ledger(s) && Enabled(c, false, s, step)
    ensures Ledger(Apply(c, s, step))
  {
    hide Ledger, Enabled, Apply;
    match step
    case Teardown => LedgerTeardown(c, s);
    case Admit(a, name) => LedgerAdmit(c, s, a, name);
    case ReserveAddress(a, answers) => LedgerReserveStep(c, s, a, answers);
    case FailConfig(a) => LedgerFailConfig(c, s, a);
    case Launch(a, spawned) => LedgerLaunch(c, s, a, spawned);
    case EndWait(a, ready) => LedgerEndWait(c, s, a, ready);
    case CheckOwner(a, known) => LedgerCheckOwner(c, s, a, known);
    case TryPublish(a) => LedgerTryPublish(c, s, a);
    case FinishOwnStop(a, signalled) => LedgerFinishOwnStop(c, s, a, signalled);
    case LeavePendingMap(a) => LedgerLeavePendingMap(c, s, a);
    case Unreserving(a) => LedgerUnreserving(c, s, a);
    case Releasing(a) => LedgerReleasing(c, s, a);
    case Unmarking(a) => LedgerUnmarking(c, s, a);
    case Remove(spelling) => LedgerRemove(c, s, spelling);
    case FinishStop(a, signalled) => LedgerFinishStop(c, s, a, signalled);
    case WatchExit(a) => LedgerWatch(c, s, a);
    case RaiseHealthy => LedgerFlag(c, s, step);
    case LowerHealthy => LedgerFlag(c, s, step);
    case Restart => LedgerFlag(c, s, step);
    case Leave => LedgerFlag(c, s, step);
    case Unbind(a, addr) => LedgerOutside(c, s, step);
    case Bind(a, addr) => LedgerOutside(c, s, step);
    case Exit(a) => LedgerOutside(c, s, step);
    case Reap(a) => LedgerOutside(c, s, step);
    case ForeignBind(addr) => LedgerOutside(c, s, step);
    case ForeignClose(addr) => LedgerOutside(c, s, step);
  }
}
