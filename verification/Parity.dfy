/** When the two ports of the reducer agree: exactly for one effect, a list of effects and a tick, then
    for events and whole logs. */
module Parity {
  import opened Wrappers
  import opened JsonTree
  import opened Events
  import opened Deltas
  import opened Reducer
  import opened TsReducer
  import opened Ports
  import opened Ledgers
  import opened LedgerStep
  import opened Conservation
  import opened Runs
  import Owners

  // --- one effect ---

  /** Above the last segment the path meets a null. */
  predicate NullOnTheWay(v: Json, path: Path) {
    path != [] && (v.Null? || (v.Obj? && path[0] in v.fields && NullOnTheWay(v.fields[path[0]], path[1..])))
  }

  lemma {:induction false} DeletesExactly(v: Json, path: Path)
    requires path != []
    ensures TsDeleteIn(v, path) == DeleteIn(v, path) <==> !NullOnTheWay(v, path)
    decreases |path|
  {
    if v.Obj? && path[0] in v.fields {
      if |path| == 1 {
        assert path[1..] == [];
      } else {
        var a, b := TsDeleteIn(v.fields[path[0]], path[1..]), DeleteIn(v.fields[path[0]], path[1..]);
        DeletesExactly(v.fields[path[0]], path[1..]);
        assert v.fields[path[0] := a][path[0]] == a && v.fields[path[0] := b][path[0]] == b;
      }
    }
  }

  /** An integer beyond uint256. */
  predicate Wild(v: Json) {
    v.Int? && AsUint(v).None?
  }

  /** Where both operands are integers, an absent or null target counting as one, they are uint256 and the
      target is not null. */
  predicate EvenOperands(s: Json, full: Path, value: Option<Json>) {
    var target := GetIn(s, full);
    value.Some? && value.value.Int? && (target.None? || target.value.Null? || target.value.Int?) ==>
      !Wild(value.value) && (target.None? || (target.value.Int? && !Wild(target.value)))
  }

  predicate EvenDelta(s: Json, d: Json) {
    match Decode(d)
    case None => true
    case Some(delta) =>
      match delta.op
      case Set => true
      case Delete => !NullOnTheWay(s, delta.full)
      case Add => EvenOperands(s, delta.full, delta.value)
      case Sub => EvenOperands(s, delta.full, delta.value)
  }

  lemma ArithExactly(s: Json, full: Path, value: Option<Json>, add: bool)
    ensures TsArith(s, full, value, add) == Arith(s, full, value, add) <==> EvenOperands(s, full, value)
  {
    hide GetIn; hide SetIn;
  }

  /** The ports treat one effect alike, error codes included, exactly when it is even. */
  lemma DeltasExactly(s: Json, d: Json)
    ensures TsApplyDelta(s, d) == ApplyDelta(s, d) <==> EvenDelta(s, d)
  {
    hide Decode; hide Arith; hide TsArith; hide EvenOperands; hide NullOnTheWay; hide EnforceOwnerRecord; hide SetIn;
    if Decode(d).Some? {
      var delta := Decode(d).value;
      DeletesExactly(s, delta.full);
      ArithExactly(s, delta.full, delta.value, true);
      ArithExactly(s, delta.full, delta.value, false);
    }
  }

  /** Each effect is even on the state it is applied to, up to the first that fails. */
  predicate EvenEffects(s: Json, ds: seq<Json>)
    decreases |ds|
  {
    ds == [] || (EvenDelta(s, ds[0]) && (ApplyDelta(s, ds[0]).Ok? ==> EvenEffects(ApplyDelta(s, ds[0]).value, ds[1..])))
  }

  lemma {:induction false} EvenCommits(s: Json, ds: seq<Json>)
    requires EvenEffects(s, ds)
    ensures TsCommit(s, ds) == Commit(s, ds)
    decreases |ds|
  {
    hide ApplyDelta; hide TsApplyDelta; hide EvenDelta;
    if ds != [] {
      DeltasExactly(s, ds[0]);
      if ApplyDelta(s, ds[0]).Ok? { EvenCommits(ApplyDelta(s, ds[0]).value, ds[1..]); }
    }
  }

  lemma {:induction false} EvenPrefix(s: Json, ds: seq<Json>, k: nat)
    requires k <= |ds| && EvenEffects(s, ds)
    ensures EvenEffects(s, ds[..k])
    decreases |ds|
  {
    hide ApplyDelta; hide EvenDelta;
    if k > 0 && ApplyDelta(s, ds[0]).Ok? {
      EvenPrefix(ApplyDelta(s, ds[0]).value, ds[1..], k - 1);
      assert ds[..k][1..] == ds[1..][..k - 1];
    }
  }

  lemma CommitOne(s: Json, d: Json)
    ensures Commit(s, [d]) == ApplyDelta(s, d) && TsCommit(s, [d]) == TsApplyDelta(s, d)
  {
    hide ApplyDelta; hide TsApplyDelta;
    assert [d][1..] == [];
  }

  lemma CommitMore(s: Json, d: Json, ds: seq<Json>)
    ensures ApplyDelta(s, d).Ok? ==> Commit(s, [d] + ds) == Commit(ApplyDelta(s, d).value, ds)
    ensures TsApplyDelta(s, d).Ok? ==> TsCommit(s, [d] + ds) == TsCommit(TsApplyDelta(s, d).value, ds)
  {
    hide ApplyDelta; hide TsApplyDelta;
    assert ([d] + ds)[1..] == ds;
  }

  /** The ports commit a list of effects alike, at every effect, exactly when the effects are even. */
  lemma {:induction false} CommitsExactly(s: Json, ds: seq<Json>)
    ensures hide *; (forall k :: 0 <= k <= |ds| ==> TsCommit(s, ds[..k]) == Commit(s, ds[..k])) <==> EvenEffects(s, ds)
    decreases |ds|
  {
    hide ApplyDelta; hide TsApplyDelta; hide EvenDelta; hide Commit; hide TsCommit;
    if EvenEffects(s, ds) {
      forall k | 0 <= k <= |ds| ensures TsCommit(s, ds[..k]) == Commit(s, ds[..k]) {
        EvenPrefix(s, ds, k);
        EvenCommits(s, ds[..k]);
      }
    } else if forall k :: 0 <= k <= |ds| ==> TsCommit(s, ds[..k]) == Commit(s, ds[..k]) {
      var d := ds[0];
      assert TsCommit(s, ds[..1]) == Commit(s, ds[..1]) && ds[..1] == [d];
      CommitOne(s, d);
      DeltasExactly(s, d);
      assert ApplyDelta(s, d).Ok?;
      var t := ApplyDelta(s, d).value;
      CommitsExactly(t, ds[1..]);
      forall k | 0 <= k <= |ds| - 1 ensures TsCommit(t, ds[1..][..k]) == Commit(t, ds[1..][..k]) {
        assert TsCommit(s, ds[..k + 1]) == Commit(s, ds[..k + 1]);
        assert ds[..k + 1] == [d] + ds[1..][..k];
        CommitMore(s, d, ds[1..][..k]);
      }
      assert false;
    }
  }

  // --- the guard and the tick ---

  /** Some counter reaches the threshold; if bounded, one within uint256. */
  predicate Reached(counters: map<string, Json>, t: int, bounded: bool) {
    exists k :: k in counters && counters[k].Int? && t <= counters[k].n && (bounded ==> counters[k].n <= UINT256_MAX)
  }

  /** If some counter reaches the threshold at all, the threshold is not negative and a counter within
      uint256 reaches it. */
  predicate EvenGuard(s: Json) {
    var t, counters := GetIn(s, GUARD_THRESHOLD), ObjAt(s, GUARD_COUNTERS);
    t.Some? && t.value.Int? && Reached(counters, t.value.n, false) ==>
      0 <= t.value.n && Reached(counters, t.value.n, true)
  }

  lemma GuardsExactly(s: Json)
    ensures TsGuardTripped(s) == GuardTripped(s) <==> EvenGuard(s)
  {
    hide GetIn; hide ObjAt;
  }

  /** A tick that the current one lets through finds a current tick that is not negative, and an even guard. */
  predicate EvenTick(s: Json, next: nat) {
    match GetIn(s, TICK)
    case Some(Int(cur)) => cur < next <= UINT256_MAX ==> 0 <= cur && EvenGuard(s)
    case _ => true
  }

  lemma TickApart(s: Json, next: nat)
    ensures var t := SetIn(s, TICK, Int(next));
      GetIn(t, GUARD_THRESHOLD) == GetIn(s, GUARD_THRESHOLD) && ObjAt(t, GUARD_COUNTERS) == ObjAt(s, GUARD_COUNTERS)
  {
    assert TICK[0] == "tick" && GUARD_THRESHOLD[0] == "governance" && GUARD_COUNTERS[0] == "failure_mode";
    hide SetIn; hide GetIn;
    GetSetDisjoint(s, TICK, GUARD_THRESHOLD, Int(next));
    GetSetDisjoint(s, TICK, GUARD_COUNTERS, Int(next));
  }

  lemma FlagsExactly(s: Json, a: bool, b: bool)
    ensures SetIn(s, BOUNDED_MODE, Bool(a)) == SetIn(s, BOUNDED_MODE, Bool(b)) <==> a == b
  {
    GetSet(s, BOUNDED_MODE, Bool(a));
    GetSet(s, BOUNDED_MODE, Bool(b));
    hide SetIn; hide GetIn;
  }

  lemma EvenGuardMoved(s: Json, next: nat)
    ensures EvenGuard(SetIn(s, TICK, Int(next))) == EvenGuard(s)
  {
    TickApart(s, next);
    hide SetIn; hide GetIn; hide ObjAt;
  }

  /** The ports treat a tick alike exactly when it is even. */
  lemma TicksExactly(s: Json, next: nat)
    ensures TsApply(s, TickAdvanced(next)) == Apply(s, TickAdvanced(next)) <==> EvenTick(s, next)
  {
    var t := SetIn(s, TICK, Int(next));
    EvenGuardMoved(s, next);
    GuardsExactly(t);
    FlagsExactly(t, TsGuardTripped(t), GuardTripped(t));
    hide SetIn; hide GetIn; hide EvenGuard; hide GuardTripped; hide TsGuardTripped;
  }

  // --- the registers ---

  /** The ports read the same money and nonces: no balance and no fee window is an integer beyond uint256,
      and no nonce is negative. */
  ghost predicate EvenMoney(s: Json) {
    && (forall a :: a in ObjAt(s, BALANCES) ==> !Wild(ObjAt(s, BALANCES)[a]))
    && (GetIn(s, FEES).Some? ==> !Wild(GetIn(s, FEES).value))
    && (forall a :: a in ObjAt(s, NONCES) && ObjAt(s, NONCES)[a].Int? ==> 0 <= ObjAt(s, NONCES)[a].n)
  }

  lemma MoneyRead(s: Json, a: string)
    requires EvenMoney(s)
    ensures TsBalance(s, a) == Balance(s, a) && IntOr0(GetIn(s, FEES)) == Fees(s)
    ensures IntOr0(GetIn(s, NONCES + [a])) == Nonce(s, a)
  {
    ChildAt(s, BALANCES, a);
    ChildAt(s, NONCES, a);
    hide GetIn; hide ObjAt; hide BALANCES; hide NONCES; hide FEES;
  }

  lemma MoneyKept(s: Json, t: Json)
    requires EvenMoney(s) && Kept(s, t, BALANCES) && Kept(s, t, FEES) && Kept(s, t, NONCES)
    ensures EvenMoney(t)
  {
    hide GetIn; hide ObjAt; hide BALANCES; hide NONCES; hide FEES; hide Wild;
  }

  lemma SetBalanceEven(s: Json, a: string, n: nat)
    requires EvenMoney(s) && n <= UINT256_MAX
    ensures EvenMoney(SetBalance(s, a, n))
  {
    RegistersDiffer();
    OthersKept(s, BALANCES, [a], Int(n));
    PutChild(s, BALANCES, a, Int(n));
    hide GetIn; hide SetIn; hide ObjAt; hide BALANCES; hide NONCES; hide FEES; hide SameOutside; hide IN_FLIGHT;
  }

  lemma SetFeesEven(s: Json, n: nat)
    requires EvenMoney(s) && n <= UINT256_MAX
    ensures EvenMoney(SetIn(s, FEES, Int(n)))
  {
    RegistersDiffer();
    OthersKept(s, FEES, [], Int(n));
    assert FEES + [] == FEES;
    GetSet(s, FEES, Int(n));
    hide GetIn; hide SetIn; hide ObjAt; hide BALANCES; hide NONCES; hide FEES; hide SameOutside; hide IN_FLIGHT;
  }

  lemma DeltaKeepsMoney(s: Json, d: Json)
    requires EvenMoney(s) && SafeDelta(d) && ApplyDelta(s, d).Ok?
    ensures EvenMoney(ApplyDelta(s, d).value)
  {
    hide Decode; hide Operands; hide SetIn; hide DeleteIn; hide EnforceOwnerRecord; hide Outside; hide EvenMoney;
    var full := Decode(d).value.full;
    forall x: Json ensures EvenMoney(SetIn(s, full, x)) && EvenMoney(DeleteIn(s, full)) {
      OutsideKeepsMoney(s, full, x);
    }
    EnforceReturns(SetIn(s, full, Decode(d).value.value.GetOr(Null)), full);
  }

  lemma OutsideKeepsMoney(s: Json, p: Path, x: Json)
    requires EvenMoney(s) && Outside(p) && p != []
    ensures EvenMoney(SetIn(s, p, x)) && EvenMoney(DeleteIn(s, p))
  {
    OutsideRegister(p, BALANCES);
    OutsideRegister(p, FEES);
    OutsideRegister(p, NONCES);
    hide *;
    Untouched(s, p, x, BALANCES);
    Untouched(s, p, x, FEES);
    Untouched(s, p, x, NONCES);
    KeptIs(s, SetIn(s, p, x));
    KeptIs(s, DeleteIn(s, p));
    MoneyKept(s, SetIn(s, p, x));
    MoneyKept(s, DeleteIn(s, p));
  }

  lemma KeptIs(s: Json, t: Json)
    ensures forall r :: Kept(s, t, r) <==> ObjAt(t, r) == ObjAt(s, r) && GetIn(t, r) == GetIn(s, r)
  {
    hide GetIn; hide ObjAt;
  }

  lemma {:induction false} CommitKeepsMoney(s: Json, ds: seq<Json>)
    requires hide *; EvenMoney(s) && SafeDeltas(ds) && Commit(s, ds).Ok?
    ensures EvenMoney(Commit(s, ds).value)
    decreases |ds|
  {
    hide EvenMoney; hide ApplyDelta; hide SafeDelta;
    if ds != [] {
      DeltaKeepsMoney(s, ds[0]);
      CommitKeepsMoney(ApplyDelta(s, ds[0]).value, ds[1..]);
    }
  }

  // --- one event ---

  lemma {:induction false} Reachable(v: Json, path: Path)
    requires GetIn(v, path).Some?
    ensures !NullOnTheWay(v, path)
    decreases |path|
  {
    if path != [] {
      Reachable(v.fields[path[0]], path[1..]);
    }
  }

  lemma CloseAlike(s: Json, ch: string, agent: string)
    requires EvenMoney(s) && GetIn(BumpNonce(s, agent), IN_FLIGHT + [ch]).Some?
    ensures TsClose(s, ch, agent) == Close(s, ch, agent)
  {
    MoneyRead(s, agent);
    Reachable(BumpNonce(s, agent), IN_FLIGHT + [ch]);
    DeletesExactly(BumpNonce(s, agent), IN_FLIGHT + [ch]);
    hide GetIn; hide SetIn; hide DeleteIn; hide TsDeleteIn; hide NullOnTheWay; hide IN_FLIGHT; hide NONCES;
  }

  lemma StillInFlight(s: Json, l: Ledger, ch: string, agent: string)
    requires Represents(s, l) && ch in l.flights
    ensures GetIn(BumpNonce(s, agent), IN_FLIGHT + [ch]).Some?
  {
    PutNonce(s, l, agent);
    FindRefines(BumpNonce(s, agent), l.(nonces := l.nonces[agent := At(l.nonces, agent) + 1]), ch);
    hide Represents; hide BumpNonce; hide GetIn; hide IN_FLIGHT; hide Find; hide FindAt; hide SameOutside; hide Entry;
  }

  /** The unchecked result is the checked one, or the checked one reports an overflowing credit. */
  ghost predicate Follows(unchecked: Result<Json, Code>, checked: Result<Json, Code>) {
    unchecked == checked || checked == Err(OVERFLOW)
  }

  lemma CreditAlike(s: Json, l: Ledger, a: string, n: nat)
    requires Represents(s, l) && EvenMoney(s)
    ensures Follows(Ok(TsCredit(s, a, n)), Credit(s, a, n))
    ensures Credit(s, a, n).Ok? ==>
      && EvenMoney(Credit(s, a, n).value) && Paid(l, a, n).Ok?
      && Represents(Credit(s, a, n).value, Paid(l, a, n).value) && Paid(l, a, n).value.flights == l.flights
  {
    MoneyRead(s, a);
    CreditRefines(s, l, a, n);
    if Credit(s, a, n).Ok? { SetBalanceEven(s, a, Balance(s, a) + n); }
    hide Represents; hide EvenMoney; hide SetIn; hide GetIn; hide Balance; hide BALANCES; hide TsBalance;
  }

  lemma DebitAlike(s: Json, l: Ledger, a: string, n: nat)
    requires Represents(s, l) && EvenMoney(s)
    ensures TsDebit(s, a, n) == Debit(s, a, n)
    ensures Debit(s, a, n).Ok? ==>
      && EvenMoney(Debit(s, a, n).value) && Debited(l, a, n).Ok?
      && Represents(Debit(s, a, n).value, Debited(l, a, n).value) && Debited(l, a, n).value.flights == l.flights
  {
    MoneyRead(s, a);
    DebitRefines(s, l, a, n);
    BalanceBound(s, a);
    if Debit(s, a, n).Ok? { SetBalanceEven(s, a, Balance(s, a) - n); }
    hide Represents; hide EvenMoney; hide SetIn; hide GetIn; hide Balance; hide BALANCES; hide TsBalance;
  }

  lemma BalanceBound(s: Json, a: string)
    ensures Balance(s, a) <= UINT256_MAX && Fees(s) <= UINT256_MAX
  {
  }

  lemma FeesAlike(s: Json, l: Ledger, n: nat)
    requires Represents(s, l) && EvenMoney(s)
    ensures Follows(Ok(TsAddFees(s, n)), AddFees(s, n))
    ensures AddFees(s, n).Ok? ==>
      && EvenMoney(AddFees(s, n).value) && Collected(l, n).Ok?
      && Represents(AddFees(s, n).value, Collected(l, n).value) && Collected(l, n).value.flights == l.flights
  {
    MoneyRead(s, "");
    AddFeesRefines(s, l, n);
    if AddFees(s, n).Ok? { SetFeesEven(s, Fees(s) + n); }
    hide Represents; hide EvenMoney; hide SetIn; hide GetIn; hide Fees; hide FEES;
  }

  lemma ReleaseAlike(s: Json, l: Ledger, ch: string, agent: string, escrow: nat, refund: nat)
    requires Represents(s, l) && EvenMoney(s) && ch in l.flights
    ensures Follows(TsRelease(s, ch, agent, escrow, refund), Release(s, ch, agent, escrow, refund))
  {
    hide Represents; hide EvenMoney; hide Credit; hide TsCredit; hide AddFees; hide TsAddFees; hide Close; hide TsClose;
    hide Paid; hide Collected;
    CreditAlike(s, l, agent, refund);
    if refund <= escrow && (refund == 0 || Credit(s, agent, refund).Ok?) {
      var s1 := if refund == 0 then s else Credit(s, agent, refund).value;
      var l1 := if refund == 0 then l else Paid(l, agent, refund).value;
      FeesAlike(s1, l1, escrow - refund);
      if AddFees(s1, escrow - refund).Ok? {
        var s2 := AddFees(s1, escrow - refund).value;
        StillInFlight(s2, Collected(l1, escrow - refund).value, ch, agent);
        CloseAlike(s2, ch, agent);
      }
    }
  }

  lemma ChargeAlike(s: Json, l: Ledger, ch: string, agent: string, charge: nat)
    requires Represents(s, l) && EvenMoney(s) && ch in l.flights
    ensures Follows(TsCharge(s, ch, agent, charge), Charge(s, ch, agent, charge))
  {
    hide Represents; hide EvenMoney; hide AddFees; hide TsAddFees; hide Close; hide TsClose; hide Debit; hide TsDebit;
    hide Debited; hide Collected;
    DebitAlike(s, l, agent, charge);
    NoDebit(s, agent);
    if Debit(s, agent, charge).Ok? {
      var s1 := if charge == 0 then s else Debit(s, agent, charge).value;
      var l1 := if charge == 0 then l else Debited(l, agent, charge).value;
      FeesAlike(s1, l1, charge);
      if AddFees(s1, charge).Ok? {
        var s2 := AddFees(s1, charge).value;
        StillInFlight(s2, Collected(l1, charge).value, ch, agent);
        CloseAlike(s2, ch, agent);
      }
    }
  }

  lemma NoDebit(s: Json, a: string)
    ensures Debit(s, a, 0).Ok?
  {
  }

  lemma FindAlike(s: Json, l: Ledger, ch: string)
    requires hide *; Represents(s, l) && Sound(l.flights)
    ensures TsFind(s, ch) == Find(s, ch) && forall st :: TsFindAt(s, ch, st) == FindAt(s, ch, st)
    ensures ch in l.flights ==>
      && Find(s, ch) == Ok(Entry(l.flights[ch])) && TsEscrowOf(Entry(l.flights[ch])) == l.flights[ch].escrow
      && EscrowOf(Entry(l.flights[ch])) == l.flights[ch].escrow
      && AgentOf(Entry(l.flights[ch])) == Some(l.flights[ch].agent)
      && StagedOf(Entry(l.flights[ch])) == l.flights[ch].staged
    ensures ch !in l.flights ==> Find(s, ch) == Err(UNKNOWN_CAL)
  {
    FindRefines(s, l, ch);
    if ch in l.flights {
      SoundEntry(l, ch);
      EntryFields(l.flights[ch]);
      assert Entry(l.flights[ch]).Obj?;
      assert TsEscrowOf(Entry(l.flights[ch])) == l.flights[ch].escrow;
    }
    hide Represents; hide GetIn; hide IN_FLIGHT; hide Sound; hide Entry; hide IsAt; hide TsEscrowOf; hide EscrowOf;
    hide AgentOf; hide StagedOf;
  }

  lemma FailAlike(s: Json, l: Ledger, ch: string, fee: Option<nat>, refund: Option<nat>)
    requires Represents(s, l) && Sound(l.flights) && EvenMoney(s)
    ensures Follows(TsFail(s, ch, fee, refund), Fail(s, ch, fee, refund))
  {
    hide Represents; hide Sound; hide EvenMoney; hide Entry; hide IsAt; hide AgentOf; hide TsEscrowOf; hide EscrowOf;
    hide Find; hide TsFind; hide Charge; hide TsCharge; hide Release; hide TsRelease; hide StagedOf;
    FindAlike(s, l, ch);
    if ch in l.flights {
      var f := l.flights[ch];
      if fee.Some? { ChargeAlike(s, l, ch, f.agent, fee.value); }
      if refund.Some? { ReleaseAlike(s, l, ch, f.agent, f.escrow, refund.value); }
    }
  }

  /** Its staged effects are even, if it finalizes a CAL that is in flight; its tick is even, if it is one. */
  predicate EvenEvent(s: Json, ev: Event) {
    hide *;
    match ev
    case CalFinalized(ch, _, _) => Find(s, ch).Ok? ==> EvenEffects(s, StagedOf(Find(s, ch).value))
    case TickAdvanced(next) => EvenTick(s, next)
    case _ => true
  }

  lemma FinalizedAlike(s: Json, l: Ledger, ev: Event)
    requires hide *; Represents(s, l) && Sound(l.flights) && EvenMoney(s) && ev.CalFinalized? && EvenEvent(s, ev)
    ensures Follows(TsApply(s, ev), Apply(s, ev))
    ensures ev.ch in l.flights && Commit(s, l.flights[ev.ch].staged).Err? ==> TsApply(s, ev) == Apply(s, ev)
  {
    hide Represents; hide Sound; hide EvenMoney; hide Entry; hide IsAt; hide AgentOf; hide TsEscrowOf; hide EscrowOf;
    hide Find; hide TsFind; hide FindAt; hide TsFindAt; hide Release; hide TsRelease; hide StagedOf; hide EvenEffects;
    hide Commit; hide TsCommit; hide SafeDeltas;
    var ch := ev.ch;
    FindAlike(s, l, ch);
    FindRefines(s, l, ch);
    if ch in l.flights {
      var f := l.flights[ch];
      SoundEntry(l, ch);
      EvenCommits(s, f.staged);
      if Commit(s, f.staged).Ok? {
        CommitRefines(s, l, f.staged);
        CommitKeepsMoney(s, f.staged);
        if ev.refund.Some? { ReleaseAlike(Commit(s, f.staged).value, l, ch, f.agent, f.escrow, ev.refund.value); }
      }
    }
  }

  lemma MovesAlike(s: Json, l: Ledger, ev: Event)
    requires Represents(s, l) && Sound(l.flights) && EvenMoney(s)
    requires ev.CalCreated? || ev.CalSigned? || ev.CalValidated? || ev.CalExecuted? || ev.CalSettled?
    ensures TsApply(s, ev) == Apply(s, ev)
  {
    hide Represents; hide Sound; hide EvenMoney; hide Entry; hide IsAt; hide AgentOf; hide FindAt; hide TsFindAt;
    hide MoveStage; hide SetField; hide Debit; hide TsDebit; hide AgentBusy; hide GetIn; hide SetIn; hide IN_FLIGHT;
    hide TsEscrowOf; hide EscrowOf; hide StagedOf; hide Debited;
    FindAlike(s, l, ev.ch);
    FindRefines(s, l, ev.ch);
    if ev.CalValidated? && ev.ch in l.flights && ev.escrow.Some? {
      DebitAlike(s, l, l.flights[ev.ch].agent, ev.escrow.value);
    }
  }

  lemma TransferAlike(s: Json, l: Ledger, ev: Event)
    requires Represents(s, l) && EvenMoney(s) && (ev.Transferred? || ev.ShadowInit?)
    ensures Follows(TsApply(s, ev), Apply(s, ev))
  {
    hide Represents; hide EvenMoney; hide Debit; hide TsDebit; hide Credit; hide TsCredit; hide GetIn; hide SetIn;
    hide BALANCES; hide Debited;
    if ev.Transferred? {
      DebitAlike(s, l, ev.from, ev.amount);
      if Debit(s, ev.from, ev.amount).Ok? {
        CreditAlike(Debit(s, ev.from, ev.amount).value, Debited(l, ev.from, ev.amount).value, ev.to, ev.amount);
      }
    }
  }

  /** Where money is even, the ports can differ on an even event only where the checked one reports an
      overflowing credit. */
  lemma EventFollows(s: Json, l: Ledger, ev: Event)
    requires Represents(s, l) && Sound(l.flights) && EvenMoney(s) && EvenEvent(s, ev)
    ensures Follows(TsApply(s, ev), Apply(s, ev))
    ensures CommitFails(s, l, ev) || ev.TickAdvanced? ==> TsApply(s, ev) == Apply(s, ev)
  {
    hide Represents; hide Sound; hide EvenMoney;
    match ev {
      case CalFinalized(_, _, _) => hide Apply; hide TsApply; hide EvenEvent; hide Commit; FinalizedAlike(s, l, ev);
      case CalFailed(ch, fee, refund, _) => hide Fail; hide TsFail; FailAlike(s, l, ch, fee, refund);
      case CalExpired(ch, fee, refund, _) => hide Fail; hide TsFail; FailAlike(s, l, ch, fee, refund);
      case Transferred(_, _, _) => hide Apply; hide TsApply; TransferAlike(s, l, ev);
      case ShadowInit(_) => hide Apply; hide TsApply; TransferAlike(s, l, ev);
      case FeedSubmitted(_, _) =>
      case TickAdvanced(next) => hide Apply; hide TsApply; hide EvenTick; TicksExactly(s, next);
      case Unreadable(_) =>
      case _ => hide Apply; hide TsApply; MovesAlike(s, l, ev);
    }
  }

  lemma OverRefundUnderflows(s: Json, l: Ledger, ev: Event)
    requires Represents(s, l) && Sound(l.flights) && OverRefund(l, ev)
    ensures TsApply(s, ev).Err?
  {
    hide Represents; hide Sound; hide Entry; hide AgentOf; hide TsEscrowOf; hide EscrowOf; hide IsAt; hide Find;
    hide TsFind; hide TsFindAt; hide TsCommit; hide TsCredit; hide TsAddFees; hide TsClose; hide TsCharge;
    hide StagedOf;
    FindAlike(s, l, ev.ch);
    FindRefines(s, l, ev.ch);
    EntryFields(l.flights[ev.ch]);
  }

  /** With even money and the supply in range, the ports accept the same even events with the same states;
      a code can only differ on an excessive refund. */
  lemma PortsAgree(s: Json, l: Ledger, ev: Event)
    requires hide *;
      Represents(s, l) && Sound(l.flights) && Supply(l) <= UINT256_MAX && EvenMoney(s) && EvenEvent(s, ev)
    ensures !OverRefund(l, ev) ==> TsApply(s, ev) == Apply(s, ev)
    ensures TsApply(s, ev).Ok? <==> Apply(s, ev).Ok?
    ensures Apply(s, ev).Ok? ==> TsApply(s, ev) == Apply(s, ev)
  {
    hide Apply; hide TsApply; hide Step; hide Represents; hide Sound; hide Supply; hide Commit; hide EvenMoney;
    hide EvenEvent; hide OverRefund;
    EventFollows(s, l, ev);
    Refines(s, l, ev);
    StepConserves(l, ev);
    if OverRefund(l, ev) {
      OverRefundUnderflows(s, l, ev);
      OverRefundRejected(s, l, ev);
    }
  }

  /** The ports accept the event with the same state or both reject it, and of a CAL that finalizes they
      commit the staged effects alike at every effect. */
  predicate StepAlike(s: Json, ev: Event) {
    hide *;
    && (TsApply(s, ev) == Apply(s, ev) || (TsApply(s, ev).Err? && Apply(s, ev).Err?))
    && (ev.CalFinalized? && Find(s, ev.ch).Ok? ==> CommitsAlike(s, StagedOf(Find(s, ev.ch).value)))
  }

  predicate CommitsAlike(s: Json, ds: seq<Json>) {
    forall k :: 0 <= k <= |ds| ==> TsCommit(s, ds[..k]) == Commit(s, ds[..k])
  }

  lemma TickErrors(s: Json, next: nat)
    ensures TsApply(s, TickAdvanced(next)).Err? && Apply(s, TickAdvanced(next)).Err? ==>
      TsApply(s, TickAdvanced(next)) == Apply(s, TickAdvanced(next))
  {
    hide GetIn; hide SetIn; hide TsRecomputeBounded; hide RecomputeBounded;
  }

  /** With even money and the supply in range, the ports take an event alike exactly when it is even. */
  lemma EventsExactly(s: Json, l: Ledger, ev: Event)
    requires hide *; Represents(s, l) && Sound(l.flights) && Supply(l) <= UINT256_MAX && EvenMoney(s)
    ensures StepAlike(s, ev) <==> EvenEvent(s, ev)
  {
    hide Represents; hide Sound; hide Supply; hide EvenMoney; hide Apply; hide TsApply; hide EvenEffects; hide EvenTick;
    hide TsCommit; hide Commit; hide Find; hide StagedOf;
    if EvenEvent(s, ev) { PortsAgree(s, l, ev); }
    if ev.CalFinalized? && Find(s, ev.ch).Ok? { CommitsExactly(s, StagedOf(Find(s, ev.ch).value)); }
    if ev.TickAdvanced? {
      TicksExactly(s, ev.newTick);
      TickErrors(s, ev.newTick);
    }
  }

  // --- where they part ---

  /** The effect that adds minus one to this place of the treasury. */
  function MinusOne(key: string): Json {
    Obj(map["ns" := Str("treasury"), "op" := Str("add"), "path" := Arr([Str(key)]), "value" := Int(-1)])
  }

  /** A CAL about to finalize whose only effect adds minus one to an amount: Rust rejects the event, TypeScript
      finalizes the CAL with the amount lowered, below zero if it was zero. */
  lemma NegativeAddParts(s: Json, l: Ledger, ev: Event, key: string, v: nat)
    requires hide *; Represents(s, l) && Sound(l.flights) && Supply(l) <= UINT256_MAX && EvenMoney(s)
    requires ev.CalFinalized? && ev.ch in l.flights && l.flights[ev.ch].stage == SETTLED
    requires ev.refund.Some? && ev.refund.value <= l.flights[ev.ch].escrow
    requires l.flights[ev.ch].staged == [MinusOne(key)] && Outside(["treasury", key])
    requires GetIn(s, ["treasury", key]) == Some(Int(v)) && v <= UINT256_MAX
    ensures SafeDelta(MinusOne(key))
    ensures Apply(s, ev) == Err(BAD_DELTA)
    ensures TsApply(s, ev).Ok? && GetIn(TsApply(s, ev).value, ["treasury", key]) == Some(Int(v - 1))
  {
    hide *;
    var p, back := ["treasury", key], ev.refund.value;
    MinusOneRead(key);
    MinusOneCommits(s, key, v);
    FindAlike(s, l, ev.ch);
    FindRefines(s, l, ev.ch);
    var s1, f := SetIn(s, p, Int(v - 1)), l.flights[ev.ch];
    OutsideKeepsMoney(s, p, Int(v - 1));
    PutOutside(s, l, p, Int(v - 1));
    SoundEntry(l, ev.ch);
    FinalizedCases(s, ev, f);
    ReleaseAlike(s1, l, ev.ch, f.agent, f.escrow, back);
    ReleaseRefines(s1, l, ev.ch, f, back);
    ReleaseConserves(l, ev.ch, back);
    GetSet(s, p, Int(v - 1));
    AgreesOk(Release(s1, ev.ch, f.agent, f.escrow, back), Released(l, ev.ch, f, back));
    FollowsOk(TsRelease(s1, ev.ch, f.agent, f.escrow, back), Release(s1, ev.ch, f.agent, f.escrow, back));
    SameOutsideGet(s1, TsRelease(s1, ev.ch, f.agent, f.escrow, back).value, p);
  }

  lemma FollowsOk(a: Result<Json, Code>, b: Result<Json, Code>)
    requires Follows(a, b) && b.Ok?
    ensures a == b
  {
  }

  lemma AgreesOk(r: Result<Json, Code>, t: Result<Ledger, Code>)
    requires Agrees(r, t) && t.Ok?
    ensures r.Ok?
  {
    hide Represents;
  }

  lemma FinalizedCases(s: Json, ev: Event, f: Flight)
    requires hide *;
      ev.CalFinalized? && ev.refund.Some? && ev.refund.value <= f.escrow <= UINT256_MAX && f.stage == SETTLED
    requires FindAt(s, ev.ch, SETTLED) == Ok(Entry(f)) && TsFindAt(s, ev.ch, SETTLED) == Ok(Entry(f))
    requires AgentOf(Entry(f)) == Some(f.agent) && StagedOf(Entry(f)) == f.staged
    requires EscrowOf(Entry(f)) == f.escrow && TsEscrowOf(Entry(f)) == f.escrow
    ensures Commit(s, f.staged).Err? ==> Apply(s, ev) == Err(Commit(s, f.staged).error)
    ensures TsCommit(s, f.staged).Ok? ==>
      TsApply(s, ev) == TsRelease(TsCommit(s, f.staged).value, ev.ch, f.agent, f.escrow, ev.refund.value)
  {
    hide FindAt; hide TsFindAt; hide Entry; hide AgentOf; hide StagedOf; hide EscrowOf; hide TsEscrowOf; hide Release;
    hide TsRelease; hide Commit; hide TsCommit;
  }

  lemma MinusOneRead(key: string)
    ensures Decode(MinusOne(key)) == Some(Delta.Delta(Deltas.Op.Add, ["treasury", key], Some(Int(-1))))
    ensures Outside(["treasury", key]) ==> SafeDelta(MinusOne(key))
  {
    var d, items := MinusOne(key), [Str(key)];
    assert d.Get("ns") == Some(Str("treasury")) && d.Get("op") == Some(Str("add"));
    assert d.Get("path") == Some(Arr(items)) && d.Get("value") == Some(Int(-1));
    assert Owners.StrItems(items[1..]) == Some([]) && items[0].s == key;
    assert Owners.StrItems(items).value == [key];
    assert ["treasury"] + [key] == ["treasury", key];
    assert "add"[0] == 'a' && "set"[0] == 's' && "delete"[0] == 'd' && "sub"[0] == 's';
    hide Owners.StrItems; hide Outside;
  }

  lemma MinusOneCommits(s: Json, key: string, v: nat)
    requires GetIn(s, ["treasury", key]) == Some(Int(v)) && v <= UINT256_MAX
    requires Decode(MinusOne(key)) == Some(Delta.Delta(Deltas.Op.Add, ["treasury", key], Some(Int(-1))))
    ensures Commit(s, [MinusOne(key)]) == Err(BAD_DELTA)
    ensures TsCommit(s, [MinusOne(key)]) == Ok(SetIn(s, ["treasury", key], Int(v - 1)))
  {
    hide Decode; hide GetIn; hide SetIn; hide MinusOne;
    CommitOne(s, MinusOne(key));
    hide Commit; hide TsCommit;
  }

  /** A negative threshold that some counter reaches: both ports accept the tick, and only TypeScript goes into
      bounded mode. */
  lemma NegativeThresholdParts(s: Json, next: nat, t: int, cur: nat, k: string)
    requires hide *; GetIn(s, TICK) == Some(Int(cur)) && cur < next <= UINT256_MAX
    requires GetIn(s, GUARD_THRESHOLD) == Some(Int(t)) && t < 0
    requires k in ObjAt(s, GUARD_COUNTERS) && ObjAt(s, GUARD_COUNTERS)[k].Int? && ObjAt(s, GUARD_COUNTERS)[k].n >= t
    ensures Apply(s, TickAdvanced(next)).Ok? && TsApply(s, TickAdvanced(next)).Ok?
    ensures GetIn(Apply(s, TickAdvanced(next)).value, BOUNDED_MODE) == Some(Bool(false))
    ensures GetIn(TsApply(s, TickAdvanced(next)).value, BOUNDED_MODE) == Some(Bool(true))
  {
    var u := SetIn(s, TICK, Int(next));
    TickApart(s, next);
    GetSet(u, BOUNDED_MODE, Bool(true));
    GetSet(u, BOUNDED_MODE, Bool(false));
    hide SetIn; hide GetIn; hide ObjAt; hide BOUNDED_MODE; hide TICK;
    assert TsGuardTripped(u) && !GuardTripped(u);
  }

  /** A negative current tick: TypeScript takes every next tick, Rust none. */
  lemma NegativeTickParts(s: Json, next: nat, cur: int)
    requires GetIn(s, TICK) == Some(Int(cur)) && cur < 0 && next <= UINT256_MAX
    ensures Apply(s, TickAdvanced(next)) == Err(BAD_TICK) && TsApply(s, TickAdvanced(next)).Ok?
  {
    hide SetIn; hide GetIn; hide TsRecomputeBounded; hide RecomputeBounded;
  }

  // --- logs ---

  /** Along the checked run money stays even, and so is every event. */
  ghost predicate EvenRun(s: Json, log: seq<Event>) {
    hide *;
    forall i :: 0 <= i < |log| && Materialize(Rust, s, log[..i]).Ok? ==>
      EvenMoney(Materialize(Rust, s, log[..i]).value) && EvenEvent(Materialize(Rust, s, log[..i]).value, log[i])
  }

  /** The port is the checked one, or the supply is in range and the log even. */
  ghost predicate Follower(port: Port, s: Json, l: Ledger, log: seq<Event>) {
    port == Rust || (Supply(l) <= UINT256_MAX && EvenRun(s, log))
  }

  lemma EvenRunPrefix(s: Json, log: seq<Event>)
    requires hide *; log != [] && EvenRun(s, log)
    ensures EvenRun(s, log[..|log| - 1])
    ensures Materialize(Rust, s, log[..|log| - 1]).Ok? ==>
      var t := Materialize(Rust, s, log[..|log| - 1]).value; EvenMoney(t) && EvenEvent(t, log[|log| - 1])
  {
    hide Materialize; hide EvenMoney; hide EvenEvent;
    var n := |log| - 1;
    forall i | 0 <= i < n && Materialize(Rust, s, log[..n][..i]).Ok?
      ensures EvenMoney(Materialize(Rust, s, log[..n][..i]).value)
      ensures EvenEvent(Materialize(Rust, s, log[..n][..i]).value, log[..n][i])
    {
      assert log[..n][..i] == log[..i];
    }
  }

  /** With the supply in range and an even run, the TypeScript port accepts the same logs with the same
      states, and rejects the others at the same event. */
  lemma {:induction false} FoldPorts(port: Port, s: Json, l: Ledger, log: seq<Event>)
    requires hide *; Represents(s, l) && Sound(l.flights) && SafeLog(log) && Follower(port, s, l, log)
    ensures match Materialize(Rust, s, log)
      case Ok(t) => Materialize(port, s, log) == Ok(t)
      case Err((_, i)) => Materialize(port, s, log).Err? && Materialize(port, s, log).error.1 == i
    decreases |log|
  {
    hide Represents; hide Supply; hide Apply; hide TsApply; hide Step; hide LedgerAfter; hide Sound; hide EvenRun;
    hide EvenMoney; hide EvenEvent;
    if log != [] && port != Rust {
      var n := |log| - 1;
      EvenRunPrefix(s, log);
      FoldPorts(port, s, l, log[..n]);
      if Materialize(Rust, s, log[..n]).Ok? {
        RunKeeps(s, l, log[..n]);
        PortsAgree(Materialize(Rust, s, log[..n]).value, LedgerAfter(l, log[..n]), log[n]);
      }
    }
  }
}
