/** A condition for the ports to agree that can be checked before a run: no null in the state and in what
    the effects set, and no integer beyond uint256. Every event keeps it. */
module Plain {
  import opened Wrappers
  import opened JsonTree
  import opened Events
  import opened Deltas
  import opened Reducer
  import opened Ports
  import opened Ledgers
  import opened LedgerStep
  import opened Conservation
  import opened Runs
  import opened Parity

  /** What may stand at a place of the tree; only a nonce has no upper bound. */
  predicate PlainAt(p: Path, v: Json) {
    !v.Null? && (v.Int? ==> 0 <= v.n && (v.n <= UINT256_MAX || NONCES <= p))
  }

  /** The tree below this place is plain. */
  ghost predicate PlainTree(p: Path, v: Json) {
    forall q: Path :: GetIn(v, q).Some? ==> PlainAt(p + q, GetIn(v, q).value)
  }

  ghost predicate PlainState(s: Json) {
    PlainTree([], s)
  }

  ghost predicate PlainDelta(d: Json) {
    match Decode(d)
    case None => true
    case Some(delta) =>
      match delta.op
      case Set => delta.value.Some? && PlainTree(delta.full, delta.value.value)
      case Delete => true
      case Add => delta.value.Some? ==> !Wild(delta.value.value)
      case Sub => delta.value.Some? ==> !Wild(delta.value.value)
  }

  ghost predicate PlainDeltas(ds: seq<Json>) {
    forall i :: 0 <= i < |ds| ==> PlainDelta(ds[i])
  }

  // --- writing into a plain tree ---

  /** What is found after a set was put there, is an object on the way, or was there before. */
  lemma AfterSet(s: Json, p: Path, x: Json, q: Path)
    ensures p <= q ==> GetIn(SetIn(s, p, x), q) == GetIn(x, q[|p|..])
    ensures !(p <= q) && q <= p ==> GetIn(SetIn(s, p, x), q).Some? && GetIn(SetIn(s, p, x), q).value.Obj?
    ensures !(p <= q) && !(q <= p) ==> GetIn(SetIn(s, p, x), q) == GetIn(s, q)
  {
    if p <= q {
      assert q == p + q[|p|..];
      GetAppend(SetIn(s, p, x), p, q[|p|..]);
      GetSet(s, p, x);
    } else if q <= p {
      assert p == q + p[|q|..];
      SetAppend(s, q, p[|q|..], x);
      var y := SetIn(GetIn(s, q).GetOr(Null), p[|q|..], x);
      assert y.Obj?;
      GetSet(s, q, y);
    } else {
      GetSetDisjoint(s, p, q, x);
    }
  }

  lemma SetPlain(s: Json, p: Path, x: Json)
    requires PlainState(s) && PlainTree(p, x)
    ensures PlainState(SetIn(s, p, x))
  {
    hide GetIn; hide SetIn; hide PlainAt;
    forall q: Path | GetIn(SetIn(s, p, x), q).Some? ensures PlainAt([] + q, GetIn(SetIn(s, p, x), q).value) {
      AfterSet(s, p, x, q);
      assert [] + q == q;
      if p <= q {
        assert p + q[|p|..] == q;
      } else if q <= p {
        ObjPlain(q, GetIn(SetIn(s, p, x), q).value);
      }
    }
  }

  lemma ObjPlain(p: Path, v: Json)
    requires v.Obj? || v.Arr? || v.Str? || v.Bool?
    ensures PlainAt(p, v)
  {
  }

  lemma {:induction false} AfterDelete(s: Json, p: Path, q: Path)
    requires p != [] && GetIn(DeleteIn(s, p), q).Some?
    ensures GetIn(DeleteIn(s, p), q).value.Obj? || GetIn(DeleteIn(s, p), q) == GetIn(s, q)
    decreases |p|
  {
    if q != [] && s.Obj? && p[0] in s.fields && |p| > 1 && q[0] == p[0] {
      AfterDelete(s.fields[p[0]], p[1..], q[1..]);
    }
  }

  lemma DeletePlain(s: Json, p: Path)
    requires PlainState(s) && p != []
    ensures PlainState(DeleteIn(s, p))
  {
    hide GetIn; hide DeleteIn; hide PlainAt;
    forall q: Path | GetIn(DeleteIn(s, p), q).Some? ensures PlainAt([] + q, GetIn(DeleteIn(s, p), q).value) {
      AfterDelete(s, p, q);
      if GetIn(DeleteIn(s, p), q).value.Obj? { ObjPlain([] + q, GetIn(DeleteIn(s, p), q).value); }
    }
  }

  lemma LeafPlain(p: Path, v: Json)
    requires !v.Obj? && PlainAt(p, v)
    ensures PlainTree(p, v)
  {
    assert p + [] == p;
  }

  lemma IntPlain(p: Path, n: nat)
    requires n <= UINT256_MAX || NONCES <= p
    ensures PlainTree(p, Int(n))
  {
    LeafPlain(p, Int(n));
  }

  lemma EntryPlain(p: Path, f: Flight)
    requires f.escrow <= UINT256_MAX && f.gas <= UINT256_MAX
    ensures PlainTree(p, Entry(f))
  {
    var e := Entry(f);
    forall q: Path | GetIn(e, q).Some? ensures PlainAt(p + q, GetIn(e, q).value) {
      if q != [] {
        assert GetIn(e, q) == GetIn(e.fields[q[0]], q[1..]);
      }
    }
  }

  // --- plain is even ---

  lemma PlainRead(s: Json, q: Path)
    requires PlainState(s) && GetIn(s, q).Some?
    ensures PlainAt(q, GetIn(s, q).value)
  {
    assert [] + q == q;
    hide GetIn; hide PlainAt;
  }

  lemma {:induction false} NullFound(v: Json, path: Path) returns (q: Path)
    requires NullOnTheWay(v, path)
    ensures GetIn(v, q) == Some(Null)
    decreases |path|
  {
    if v.Null? {
      q := [];
    } else {
      var r := NullFound(v.fields[path[0]], path[1..]);
      q := [path[0]] + r;
      assert q[1..] == r;
    }
  }

  lemma PlainWay(s: Json, path: Path)
    requires PlainState(s)
    ensures !NullOnTheWay(s, path)
  {
    if NullOnTheWay(s, path) {
      var q := NullFound(s, path);
      hide GetIn; hide PlainState; hide NullOnTheWay;
      PlainRead(s, q);
      assert false;
    }
  }

  lemma NotNonce(p: Path)
    requires Outside(p)
    ensures !(NONCES <= p)
  {
  }

  lemma PlainEven(s: Json, d: Json)
    requires PlainState(s) && PlainDelta(d) && SafeDelta(d)
    ensures EvenDelta(s, d)
  {
    hide GetIn; hide PlainState; hide Decode; hide PlainTree; hide Outside; hide NullOnTheWay;
    if Decode(d).Some? {
      var full := Decode(d).value.full;
      PlainWay(s, full);
      NotNonce(full);
      if GetIn(s, full).Some? { PlainRead(s, full); }
    }
  }

  lemma PlainAfter(s: Json, d: Json)
    requires PlainState(s) && PlainDelta(d) && ApplyDelta(s, d).Ok?
    ensures PlainState(ApplyDelta(s, d).value)
  {
    hide GetIn; hide SetIn; hide DeleteIn; hide PlainState; hide Decode; hide PlainTree; hide EnforceOwnerRecord;
    var delta := Decode(d).value;
    DeletePlain(s, delta.full);
    EnforceReturns(SetIn(s, delta.full, delta.value.GetOr(Null)), delta.full);
    if delta.op.Set? {
      SetPlain(s, delta.full, delta.value.value);
    } else if !delta.op.Delete? {
      forall m: nat | m <= UINT256_MAX ensures PlainState(SetIn(s, delta.full, Int(m))) {
        IntPlain(delta.full, m);
        SetPlain(s, delta.full, Int(m));
      }
    }
  }

  lemma {:induction false} PlainCommits(s: Json, ds: seq<Json>)
    requires hide *; PlainState(s) && PlainDeltas(ds) && SafeDeltas(ds)
    ensures EvenEffects(s, ds)
    ensures Commit(s, ds).Ok? ==> PlainState(Commit(s, ds).value)
    decreases |ds|
  {
    hide PlainState; hide PlainDelta; hide SafeDelta; hide ApplyDelta; hide EvenDelta;
    if ds != [] {
      PlainEven(s, ds[0]);
      if ApplyDelta(s, ds[0]).Ok? {
        PlainAfter(s, ds[0]);
        PlainCommits(ApplyDelta(s, ds[0]).value, ds[1..]);
      }
    }
  }

  lemma PlainMoney(s: Json)
    requires PlainState(s)
    ensures EvenMoney(s)
  {
    RegistersDiffer();
    NonceOnly("");
    hide PlainState;
    forall a | a in ObjAt(s, BALANCES) ensures !Wild(ObjAt(s, BALANCES)[a]) {
      ChildAt(s, BALANCES, a);
      hide GetIn; hide ObjAt; hide BALANCES; hide NONCES;
      PlainRead(s, BALANCES + [a]);
      NonceOnly(a);
    }
    forall a | a in ObjAt(s, NONCES) && ObjAt(s, NONCES)[a].Int? ensures 0 <= ObjAt(s, NONCES)[a].n {
      ChildAt(s, NONCES, a);
      hide GetIn; hide ObjAt; hide BALANCES; hide NONCES;
      PlainRead(s, NONCES + [a]);
    }
    if GetIn(s, FEES).Some? {
      hide GetIn; hide ObjAt; hide BALANCES; hide NONCES; hide FEES;
      PlainRead(s, FEES);
    }
  }

  lemma NonceOnly(a: string)
    ensures !(NONCES <= BALANCES + [a]) && !(NONCES <= FEES)
  {
    assert NONCES[0] == "cal" && (BALANCES + [a])[0] == "ptra" && FEES[0] == "treasury";
  }

  lemma PlainTick(s: Json, next: nat)
    requires PlainState(s)
    ensures EvenTick(s, next)
  {
    hide PlainState;
    NotCal();
    if GetIn(s, TICK).Some? { PlainRead(s, TICK); }
    if GetIn(s, GUARD_THRESHOLD).Some? { PlainRead(s, GUARD_THRESHOLD); }
    forall k | k in ObjAt(s, GUARD_COUNTERS) && ObjAt(s, GUARD_COUNTERS)[k].Int?
      ensures 0 <= ObjAt(s, GUARD_COUNTERS)[k].n <= UINT256_MAX
    {
      ChildAt(s, GUARD_COUNTERS, k);
      hide GetIn; hide ObjAt; hide GUARD_COUNTERS; hide NONCES;
      NotCalCounter(k);
      PlainRead(s, GUARD_COUNTERS + [k]);
    }
    hide GetIn; hide ObjAt; hide GUARD_COUNTERS; hide NONCES; hide TICK; hide GUARD_THRESHOLD;
  }

  lemma NotCal()
    ensures !(NONCES <= TICK) && !(NONCES <= GUARD_THRESHOLD)
  {
    assert NONCES[0] == "cal" && TICK[0] == "tick" && GUARD_THRESHOLD[0] == "governance";
  }

  lemma NotCalCounter(k: string)
    ensures !(NONCES <= GUARD_COUNTERS + [k])
  {
    assert NONCES[0] == "cal" && (GUARD_COUNTERS + [k])[0] == "failure_mode";
  }

  // --- events ---

  ghost predicate PlainEvent(ev: Event) {
    && (ev.CalExecuted? && ev.effects.Some? ==> PlainDeltas(ev.effects.value))
    && (ev.FeedSubmitted? ==> PlainTree(FEEDS + [ev.symbol], ev.value))
  }

  ghost predicate PlainLog(log: seq<Event>) {
    forall i :: 0 <= i < |log| ==> PlainEvent(log[i])
  }

  /** What the in-flight CALs have staged is plain. */
  ghost predicate PlainStaged(l: Ledger) {
    forall ch :: ch in l.flights ==> PlainDeltas(l.flights[ch].staged)
  }

  lemma PlainEventEven(s: Json, l: Ledger, ev: Event)
    requires Represents(s, l) && Sound(l.flights) && PlainState(s) && PlainStaged(l)
    ensures EvenMoney(s) && EvenEvent(s, ev)
  {
    hide Represents; hide Sound; hide PlainState; hide PlainDeltas; hide EvenMoney; hide EvenEffects; hide EvenTick;
    hide Find; hide FindAt; hide Entry; hide StagedOf; hide SafeDeltas;
    PlainMoney(s);
    if ev.TickAdvanced? { PlainTick(s, ev.newTick); }
    if ev.CalFinalized? {
      FindRefines(s, l, ev.ch);
      if ev.ch in l.flights {
        EntryFields(l.flights[ev.ch]);
        SoundEntry(l, ev.ch);
        PlainCommits(s, l.flights[ev.ch].staged);
      }
    }
  }

  lemma PlainInt(s: Json, p: Path, n: nat)
    requires PlainState(s) && (n <= UINT256_MAX || NONCES <= p)
    ensures PlainState(SetIn(s, p, Int(n)))
  {
    hide PlainState; hide PlainTree; hide SetIn; hide NONCES;
    IntPlain(p, n);
    SetPlain(s, p, Int(n));
  }

  lemma PlainLeaf(s: Json, p: Path, v: Json)
    requires PlainState(s) && (v.Str? || v.Arr? || v.Bool?)
    ensures PlainState(SetIn(s, p, v))
  {
    hide PlainState; hide PlainTree; hide SetIn;
    ObjPlain(p, v);
    LeafPlain(p, v);
    SetPlain(s, p, v);
  }

  lemma ClosePlain(s: Json, ch: string, agent: string)
    requires PlainState(s)
    ensures PlainState(Close(s, ch, agent))
  {
    hide PlainState; hide SetIn; hide DeleteIn; hide Nonce; hide NONCES; hide IN_FLIGHT;
    PlainInt(s, NONCES + [agent], Nonce(s, agent) + 1);
    DeletePlain(BumpNonce(s, agent), IN_FLIGHT + [ch]);
  }

  lemma ReleasePlain(s: Json, ch: string, agent: string, escrow: nat, refund: nat)
    requires PlainState(s) && Release(s, ch, agent, escrow, refund).Ok?
    ensures PlainState(Release(s, ch, agent, escrow, refund).value)
  {
    hide PlainState; hide SetIn; hide Close; hide Balance; hide Fees; hide BALANCES; hide FEES;
    var s1 := s;
    if refund > 0 {
      PlainInt(s, BALANCES + [agent], Balance(s, agent) + refund);
      s1 := SetBalance(s, agent, Balance(s, agent) + refund);
    }
    PlainInt(s1, FEES, Fees(s1) + (escrow - refund));
    ClosePlain(SetIn(s1, FEES, Int(Fees(s1) + (escrow - refund))), ch, agent);
  }

  lemma ChargePlain(s: Json, ch: string, agent: string, charge: nat)
    requires PlainState(s) && Charge(s, ch, agent, charge).Ok?
    ensures PlainState(Charge(s, ch, agent, charge).value)
  {
    hide PlainState; hide SetIn; hide Close; hide Balance; hide Fees; hide BALANCES; hide FEES;
    var s1 := s;
    if charge > 0 {
      DebitPlain(s, agent, charge);
      s1 := Debit(s, agent, charge).value;
    }
    PlainInt(s1, FEES, Fees(s1) + charge);
    ClosePlain(SetIn(s1, FEES, Int(Fees(s1) + charge)), ch, agent);
  }

  lemma DebitPlain(s: Json, a: string, n: nat)
    requires PlainState(s) && Debit(s, a, n).Ok?
    ensures PlainState(Debit(s, a, n).value)
  {
    BalanceBound(s, a);
    hide PlainState; hide SetIn; hide Balance; hide BALANCES;
    PlainInt(s, BALANCES + [a], Balance(s, a) - n);
  }

  lemma FailPlain(s: Json, ch: string, fee: Option<nat>, refund: Option<nat>)
    requires PlainState(s) && Fail(s, ch, fee, refund).Ok?
    ensures PlainState(Fail(s, ch, fee, refund).value)
  {
    hide PlainState; hide Find; hide AgentOf; hide IsAt; hide EscrowOf; hide Charge; hide Release;
    var h := Find(s, ch).value;
    if IsAt(h, CREATED) || IsAt(h, SIGNED) {
      ChargePlain(s, ch, AgentOf(h).value, fee.value);
    } else {
      ReleasePlain(s, ch, AgentOf(h).value, EscrowOf(h), refund.value);
    }
  }

  lemma MovePlain(s: Json, ch: string, st: Stage)
    requires PlainState(s)
    ensures PlainState(MoveStage(s, ch, st))
  {
    hide PlainState; hide SetIn; hide IN_FLIGHT; hide StageName;
    PlainLeaf(s, IN_FLIGHT + [ch] + ["stage"], Str(StageName(st)));
  }

  lemma WritesPlain(s: Json, ev: Event)
    requires hide *; PlainState(s) && Apply(s, ev).Ok?
    requires ev.CalCreated? || ev.CalSigned? || ev.CalValidated? || ev.CalExecuted? || ev.CalSettled?
    ensures PlainState(Apply(s, ev).value)
  {
    hide PlainState; hide SetIn; hide GetIn; hide IN_FLIGHT; hide MoveStage; hide FindAt; hide AgentBusy; hide AgentOf;
    hide Debit; hide Entry; hide PlainTree;
    match ev {
      case CalCreated(ch, agent) =>
        var f := Flight(agent, CREATED, 0, 0, []);
        EntryPlain(IN_FLIGHT + [ch], f);
        SetPlain(s, IN_FLIGHT + [ch], Entry(f));
      case CalSigned(ch) => MovePlain(s, ch, SIGNED);
      case CalSettled(ch) => MovePlain(s, ch, SETTLED);
      case CalValidated(ch, escrow, _) =>
        var s1 := Debit(s, AgentOf(FindAt(s, ch, SIGNED).value).value, escrow.value).value;
        DebitPlain(s, AgentOf(FindAt(s, ch, SIGNED).value).value, escrow.value);
        PlainInt(s1, IN_FLIGHT + [ch] + ["escrowed_ptra"], escrow.value);
        MovePlain(SetField(s1, ch, "escrowed_ptra", Int(escrow.value)), ch, VALIDATED);
      case CalExecuted(ch, effects, gas, _) =>
        var s1 := SetField(s, ch, "staged", Arr(effects.value));
        PlainLeaf(s, IN_FLIGHT + [ch] + ["staged"], Arr(effects.value));
        PlainInt(s1, IN_FLIGHT + [ch] + ["gas_consumed_ptra"], gas.value);
        MovePlain(SetField(s1, ch, "gas_consumed_ptra", Int(gas.value)), ch, EXECUTED);
    }
  }

  lemma OtherPlain(s: Json, ev: Event)
    requires hide *; PlainState(s) && PlainEvent(ev) && Apply(s, ev).Ok?
    requires ev.Transferred? || ev.ShadowInit? || ev.FeedSubmitted? || ev.TickAdvanced?
    ensures PlainState(Apply(s, ev).value)
  {
    hide PlainState; hide SetIn; hide GetIn; hide BALANCES; hide FEEDS; hide TICK; hide BOUNDED_MODE; hide GuardTripped;
    hide Balance; hide Debit; hide PlainTree;
    match ev {
      case Transferred(from, to, n) =>
        DebitPlain(s, from, n);
        var s1 := Debit(s, from, n).value;
        PlainInt(s1, BALANCES + [to], Balance(s1, to) + n);
      case ShadowInit(addr) => PlainInt(s, BALANCES + [addr], 0);
      case FeedSubmitted(symbol, value) => SetPlain(s, FEEDS + [symbol], value);
      case TickAdvanced(next) =>
        PlainInt(s, TICK, next);
        PlainLeaf(SetIn(s, TICK, Int(next)), BOUNDED_MODE, Bool(GuardTripped(SetIn(s, TICK, Int(next)))));
    }
  }

  lemma FinalizedPlain(s: Json, l: Ledger, ev: Event)
    requires hide *; Represents(s, l) && Sound(l.flights) && PlainState(s) && PlainStaged(l) && ev.CalFinalized?
      && Apply(s, ev).Ok?
    ensures PlainState(Apply(s, ev).value)
  {
    hide Represents; hide Sound; hide PlainState; hide PlainDeltas; hide Find; hide FindAt; hide Entry; hide StagedOf;
    hide SafeDeltas; hide AgentOf; hide EscrowOf; hide Release; hide Commit; hide IsAt;
    FindRefines(s, l, ev.ch);
    var f := l.flights[ev.ch];
    EntryFields(f);
    SoundEntry(l, ev.ch);
    PlainCommits(s, f.staged);
    ReleasePlain(Commit(s, f.staged).value, ev.ch, f.agent, f.escrow, ev.refund.value);
  }

  /** An accepted plain event keeps the state plain. */
  lemma PlainKept(s: Json, l: Ledger, ev: Event)
    requires hide *; Represents(s, l) && Sound(l.flights) && PlainState(s) && PlainStaged(l) && PlainEvent(ev)
      && Apply(s, ev).Ok?
    ensures PlainState(Apply(s, ev).value)
  {
    hide Represents; hide Sound; hide PlainState; hide PlainStaged; hide PlainEvent;
    match ev {
      case CalFinalized(_, _, _) => hide Apply; FinalizedPlain(s, l, ev);
      case CalFailed(ch, fee, refund, _) => hide Fail; FailPlain(s, ch, fee, refund);
      case CalExpired(ch, fee, refund, _) => hide Fail; FailPlain(s, ch, fee, refund);
      case Transferred(_, _, _) => hide Apply; OtherPlain(s, ev);
      case ShadowInit(_) => hide Apply; OtherPlain(s, ev);
      case FeedSubmitted(_, _) => hide Apply; OtherPlain(s, ev);
      case TickAdvanced(_) => hide Apply; OtherPlain(s, ev);
      case Unreadable(_) =>
      case _ => hide Apply; WritesPlain(s, ev);
    }
  }

  lemma StagedKept(l: Ledger, ev: Event)
    requires hide *; PlainStaged(l) && PlainEvent(ev) && Step(l, ev).Ok?
    ensures PlainStaged(Step(l, ev).value)
  {
    hide PlainDelta; hide PlainTree; hide Busy;
    match ev {
      case CalCreated(_, _) =>
      case CalSigned(_) =>
      case CalValidated(_, _, _) =>
      case CalExecuted(_, _, _, _) =>
      case CalSettled(_) =>
      case _ => FlightsKept(l, ev); hide Step;
    }
  }

  /** From a plain state, plain events with safe effects keep the state plain, and the whole run even. */
  lemma {:induction false} PlainRun(s: Json, l: Ledger, log: seq<Event>)
    requires hide *; Represents(s, l) && Sound(l.flights) && SafeLog(log)
    requires PlainState(s) && PlainStaged(l) && PlainLog(log)
    ensures EvenRun(s, log)
    ensures Materialize(Rust, s, log).Ok? ==>
      PlainState(Materialize(Rust, s, log).value) && PlainStaged(LedgerAfter(l, log))
    decreases |log|
  {
    hide Represents; hide Sound; hide Apply; hide Step; hide PlainState; hide PlainStaged; hide PlainEvent;
    hide EvenMoney; hide EvenEvent; hide EvenRun;
    NoRun(s);
    if log != [] {
      var n := |log| - 1;
      PlainRun(s, l, log[..n]);
      if Materialize(Rust, s, log[..n]).Ok? {
        var t, m := Materialize(Rust, s, log[..n]).value, LedgerAfter(l, log[..n]);
        RunKeeps(s, l, log[..n]);
        PlainEventEven(t, m, log[n]);
        if Apply(t, log[n]).Ok? {
          Refines(t, m, log[n]);
          PlainKept(t, m, log[n]);
          StagedKept(m, log[n]);
        }
      }
      EvenRunPush(s, log);
    }
  }

  lemma NoRun(s: Json)
    ensures EvenRun(s, [])
  {
  }

  lemma EvenRunPush(s: Json, log: seq<Event>)
    requires hide *; log != [] && EvenRun(s, log[..|log| - 1])
    requires Materialize(Rust, s, log[..|log| - 1]).Ok? ==>
      var t := Materialize(Rust, s, log[..|log| - 1]).value; EvenMoney(t) && EvenEvent(t, log[|log| - 1])
    ensures EvenRun(s, log)
  {
    hide Materialize; hide EvenMoney; hide EvenEvent;
    var n := |log| - 1;
    forall i | 0 <= i < |log| && Materialize(Rust, s, log[..i]).Ok?
      ensures EvenMoney(Materialize(Rust, s, log[..i]).value) && EvenEvent(Materialize(Rust, s, log[..i]).value, log[i])
    {
      if i < n {
        assert log[..n][..i] == log[..i] && log[..n][i] == log[i];
      }
    }
  }
}
