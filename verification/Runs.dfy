/** Folding an event log, and what holds over whole runs of accepted events. */
module Runs {
  import opened Wrappers
  import opened JsonTree
  import opened Events
  import opened Deltas
  import opened Reducer
  import opened Ports
  import opened Ledgers
  import opened LedgerStep
  import opened Conservation

  /** The log folded from a start state; an error carries the index of the rejected event. */
  function Materialize(port: Port, s: Json, log: seq<Event>): Result<Json, (Code, nat)> {
    if log == [] then Ok(s)
    else
      var n := |log| - 1;
      var t :- Materialize(port, s, log[..n]);
      match PortApply(port, t, log[n])
      case Ok(u) => Ok(u)
      case Err(c) => Err((c, n))
  }

  /** The event list folded front to back, as the source does it. */
  method MaterializeLog(port: Port, start: Json, log: seq<Event>) returns (r: Result<Json, (Code, nat)>)
    ensures r == Materialize(port, start, log)
  {
    var state := start;
    for i := 0 to |log|
      invariant Materialize(port, start, log[..i]) == Ok(state)
    {
      assert log[..i + 1][..i] == log[..i];
      match PortApply(port, state, log[i]) {
        case Ok(s) => state := s;
        case Err(c) =>
          RejectedForGood(port, start, log, i + 1);
          return Err((c, i));
      }
    }
    assert log[..|log|] == log;
    return Ok(state);
  }

  lemma {:induction false} RejectedForGood(port: Port, s: Json, log: seq<Event>, k: nat)
    requires hide *; k <= |log| && Materialize(port, s, log[..k]).Err?
    ensures Materialize(port, s, log) == Materialize(port, s, log[..k])
    decreases |log|
  {
    hide Apply;
    if k < |log| {
      assert log[..|log| - 1][..k] == log[..k];
      RejectedForGood(port, s, log[..|log| - 1], k);
    } else {
      assert log[..k] == log;
    }
  }

  /** Folding in two parts: a log resumed from a snapshot gives the same state. */
  lemma {:induction false} FoldSplit(port: Port, s: Json, a: seq<Event>, b: seq<Event>)
    requires hide *; Materialize(port, s, a).Ok?
    ensures Materialize(port, s, a + b).Ok? <==> Materialize(port, Materialize(port, s, a).value, b).Ok?
    ensures Materialize(port, s, a + b).Ok? ==>
      Materialize(port, s, a + b) == Materialize(port, Materialize(port, s, a).value, b)
    decreases |b|
  {
    hide Apply;
    if b == [] {
      assert a + b == a;
    } else {
      var n := |b| - 1;
      assert (a + b)[..|a + b| - 1] == a + b[..n] && (a + b)[|a + b| - 1] == b[n];
      FoldSplit(port, s, a, b[..n]);
    }
  }

  ghost predicate SafeLog(log: seq<Event>) {
    forall i :: 0 <= i < |log| ==> SafeEvent(log[i])
  }

  /** The ledger after a log; a rejected event leaves it alone. */
  ghost function LedgerAfter(l: Ledger, log: seq<Event>): Ledger {
    if log == [] then l
    else
      var m := LedgerAfter(l, log[..|log| - 1]);
      match Step(m, log[|log| - 1]) case Ok(n) => n case Err(_) => m
  }

  /** Over every accepted run with safe effects the tree keeps representing the ledger, the
      in-flight CALs stay sound, and the supply is the one at the start. */
  lemma {:induction false} RunKeeps(s: Json, l: Ledger, log: seq<Event>)
    requires hide *; Represents(s, l) && Sound(l.flights) && SafeLog(log) && Materialize(Rust, s, log).Ok?
    ensures var m := LedgerAfter(l, log);
      Represents(Materialize(Rust, s, log).value, m) && Sound(m.flights) && Supply(m) == Supply(l)
    ensures log != [] ==> Step(LedgerAfter(l, log[..|log| - 1]), log[|log| - 1]).Ok?
    decreases |log|
  {
    hide Represents; hide Supply; hide Apply; hide Step;
    if log != [] {
      var n := |log| - 1;
      RunKeeps(s, l, log[..n]);
      var m, t := LedgerAfter(l, log[..n]), Materialize(Rust, s, log[..n]).value;
      Refines(t, m, log[n]);
      StepKeepsSound(m, log[n]);
      StepConserves(m, log[n]);
    }
  }

  /** How often an agent's CALs have reached a terminal event. */
  ghost function Terminals(l: Ledger, log: seq<Event>, a: string): nat {
    if log == [] then 0
    else
      var n := |log| - 1;
      var m, ev := LedgerAfter(l, log[..n]), log[n];
      Terminals(l, log[..n], a) +
        if Closes(ev) && Step(m, ev).Ok? && ev.ch in m.flights && m.flights[ev.ch].agent == a then 1 else 0
  }

  lemma {:induction false} NoncesCountTerminals(l: Ledger, log: seq<Event>, a: string)
    ensures At(LedgerAfter(l, log).nonces, a) == At(l.nonces, a) + Terminals(l, log, a)
    decreases |log|
  {
    if log != [] {
      var n := |log| - 1;
      NoncesCountTerminals(l, log[..n], a);
      if Step(LedgerAfter(l, log[..n]), log[n]).Ok? {
        NonceMoves(LedgerAfter(l, log[..n]), log[n], a);
      }
      hide Step;
    }
  }

  /** Giving back the refund, or taking the charge, bumps one nonce and adds the rest to the fees. */
  lemma ClosingMoves(l: Ledger, ch: string, f: Flight, amount: nat)
    ensures var r, n := Released(l, ch, f, amount), l.nonces[f.agent := At(l.nonces, f.agent) + 1];
      r.Ok? ==> r.value.nonces == n && r.value.fees == l.fees + (f.escrow - amount)
    ensures var r, n := Charged(l, ch, f.agent, amount), l.nonces[f.agent := At(l.nonces, f.agent) + 1];
      r.Ok? ==> r.value.nonces == n && r.value.fees == l.fees + amount
  {
  }

  lemma NonceMoves(l: Ledger, ev: Event, a: string)
    requires Step(l, ev).Ok?
    ensures At(Step(l, ev).value.nonces, a) == At(l.nonces, a) +
      if Closes(ev) && ev.ch in l.flights && l.flights[ev.ch].agent == a then 1 else 0
    ensures Closes(ev) ==> ev.ch in l.flights
  {
    hide Busy; hide Released; hide Charged;
    if Closes(ev) && ev.ch in l.flights {
      if ev.refund.Some? { ClosingMoves(l, ev.ch, l.flights[ev.ch], ev.refund.value); }
      if !ev.CalFinalized? && ev.feeDebited.Some? { ClosingMoves(l, ev.ch, l.flights[ev.ch], ev.feeDebited.value); }
    }
    match ev {
      case CalFinalized(_, _, _) =>
      case CalFailed(_, _, _, _) =>
      case CalExpired(_, _, _, _) =>
      case _ =>
    }
  }

  /** What the treasury keeps of a CAL that is closed: its charge before VALIDATED, afterwards the escrow
      without the refund. */
  function KeptOf(l: Ledger, ev: Event): int {
    if !Closes(ev) || ev.ch !in l.flights then 0
    else
      var f := l.flights[ev.ch];
      if !ev.CalFinalized? && (f.stage == CREATED || f.stage == SIGNED) then ev.feeDebited.GetOr(0)
      else f.escrow - ev.refund.GetOr(0)
  }

  ghost function Retained(l: Ledger, log: seq<Event>): int {
    if log == [] then 0
    else
      var n := |log| - 1;
      var m := LedgerAfter(l, log[..n]);
      Retained(l, log[..n]) + if Step(m, log[n]).Ok? then KeptOf(m, log[n]) else 0
  }

  lemma FeesMove(l: Ledger, ev: Event)
    requires Step(l, ev).Ok?
    ensures Step(l, ev).value.fees == l.fees + KeptOf(l, ev)
  {
    hide Busy; hide Released; hide Charged;
    if Closes(ev) && ev.ch in l.flights {
      if ev.refund.Some? { ClosingMoves(l, ev.ch, l.flights[ev.ch], ev.refund.value); }
      if !ev.CalFinalized? && ev.feeDebited.Some? { ClosingMoves(l, ev.ch, l.flights[ev.ch], ev.feeDebited.value); }
    }
    match ev {
      case CalFinalized(_, _, _) =>
      case CalFailed(_, _, _, _) =>
      case CalExpired(_, _, _, _) =>
      case _ =>
    }
  }

  /** The fee window at the end is the one at the start and what the treasury kept of every closed CAL. */
  lemma {:induction false} FeesCountRetained(l: Ledger, log: seq<Event>)
    ensures LedgerAfter(l, log).fees == l.fees + Retained(l, log)
    decreases |log|
  {
    if log != [] {
      var n := |log| - 1;
      FeesCountRetained(l, log[..n]);
      if Step(LedgerAfter(l, log[..n]), log[n]).Ok? { FeesMove(LedgerAfter(l, log[..n]), log[n]); }
      hide Step; hide KeptOf;
    }
  }

  // --- the outside: only finalized effects, feeds and ticks get there ---

  lemma SameOutsideGet(s: Json, t: Json, q: Path)
    requires SameOutside(s, t) && Outside(q)
    ensures GetIn(t, q) == GetIn(s, q)
  {
  }

  lemma SetCongruentAt(s: Json, t: Json, p: Path, x: Json, q: Path)
    requires GetIn(s, q) == GetIn(t, q)
    ensures GetIn(SetIn(t, p, x), q) == GetIn(SetIn(s, p, x), q)
  {
    hide SetIn; hide GetIn;
    if p <= q {
      assert q == p + q[|p|..];
      GetAppend(SetIn(s, p, x), p, q[|p|..]);
      GetAppend(SetIn(t, p, x), p, q[|p|..]);
      GetSet(s, p, x);
      GetSet(t, p, x);
    } else if q <= p {
      assert p == q + p[|q|..];
      SetAppend(s, q, p[|q|..], x);
      SetAppend(t, q, p[|q|..], x);
      GetSet(s, q, SetIn(GetIn(s, q).GetOr(Null), p[|q|..], x));
      GetSet(t, q, SetIn(GetIn(t, q).GetOr(Null), p[|q|..], x));
    } else {
      GetSetDisjoint(s, p, q, x);
      GetSetDisjoint(t, p, q, x);
    }
  }

  lemma SetCongruent(s: Json, t: Json, p: Path, x: Json)
    requires SameOutside(s, t) && Outside(p)
    ensures SameOutside(SetIn(s, p, x), SetIn(t, p, x))
  {
    hide Outside; hide SetIn; hide GetIn;
    forall q: Path | Outside(q) ensures GetIn(SetIn(t, p, x), q) == GetIn(SetIn(s, p, x), q) {
      SetCongruentAt(s, t, p, x, q);
    }
  }

  lemma {:induction false} GetDeleteBelow(v: Json, q: Path, r: Path)
    requires r != []
    ensures GetIn(DeleteIn(v, q + r), q) == match GetIn(v, q) case None => None case Some(c) => Some(DeleteIn(c, r))
    decreases |q|
  {
    if q == [] {
      assert q + r == r;
    } else {
      assert (q + r)[0] == q[0] && (q + r)[1..] == q[1..] + r;
      if v.Obj? && q[0] in v.fields {
        GetDeleteBelow(v.fields[q[0]], q[1..], r);
      }
    }
  }

  lemma GetDeleted(v: Json, p: Path, r: Path)
    requires p != []
    ensures GetIn(DeleteIn(v, p), p + r) == None
  {
    var q, k := p[..|p| - 1], p[|p| - 1];
    assert p == q + [k] && p + r == q + ([k] + r);
    GetDeleteBelow(v, q, [k]);
    GetAppend(DeleteIn(v, p), q, [k] + r);
    assert ([k] + r)[0] == k;
  }

  lemma DeleteCongruent(s: Json, t: Json, p: Path)
    requires SameOutside(s, t) && Outside(p) && p != []
    ensures SameOutside(DeleteIn(s, p), DeleteIn(t, p))
  {
    hide Outside; hide DeleteIn;
    forall q: Path | Outside(q)
      ensures GetIn(DeleteIn(t, p), q) == GetIn(DeleteIn(s, p), q)
    {
      if p <= q {
        assert q == p + q[|p|..];
        GetDeleted(s, p, q[|p|..]);
        GetDeleted(t, p, q[|p|..]);
      } else if q <= p {
        assert p == q + p[|q|..];
        GetDeleteBelow(s, q, p[|q|..]);
        GetDeleteBelow(t, q, p[|q|..]);
      } else {
        GetDeleteDisjoint(s, p, q);
        GetDeleteDisjoint(t, p, q);
      }
    }
  }

  ghost predicate SameOutcome(r: Result<Json, Code>, u: Result<Json, Code>) {
    match r
    case Err(c) => u == Err(c)
    case Ok(s) => u.Ok? && SameOutside(s, u.value)
  }

  lemma OwnerPathsOutside(full: Path)
    requires |full| == 4 && full[0] == "registry" && full[1] == "agents"
    ensures Outside(full[..3])
  {
    assert full[..3][0] == "registry";
  }

  lemma EnforceCongruent(s: Json, t: Json, full: Path)
    requires SameOutside(s, t)
    ensures SameOutcome(EnforceOwnerRecord(s, full), EnforceOwnerRecord(t, full))
  {
    hide SameOutside;
    if |full| == 4 && full[0] == "registry" && full[1] == "agents" {
      OwnerPathsOutside(full);
      SameOutsideGet(s, t, full[..3]);
    }
    hide Owners.WellFormed;
  }

  lemma DeltaCongruent(s: Json, t: Json, d: Json)
    requires SameOutside(s, t) && SafeDelta(d)
    ensures SameOutcome(ApplyDelta(s, d), ApplyDelta(t, d))
  {
    hide SameOutside; hide Outside; hide Decode; hide EnforceOwnerRecord; hide SetIn; hide DeleteIn; hide GetIn;
    hide Arith;
    if Decode(d).Some? {
      var delta := Decode(d).value;
      var full, x := delta.full, delta.value.GetOr(Null);
      if delta.op.Set? {
        SetCongruent(s, t, full, x);
        EnforceCongruent(SetIn(s, full, x), SetIn(t, full, x), full);
      } else if delta.op.Delete? {
        DeleteCongruent(s, t, full);
      } else {
        ArithCongruent(s, t, full, delta.value, delta.op.Add?);
      }
    }
  }

  lemma OperandsCongruent(s: Json, t: Json, full: Path, value: Option<Json>)
    requires SameOutside(s, t) && Outside(full)
    ensures Operands(s, full, value) == Operands(t, full, value)
  {
    SameOutsideGet(s, t, full);
  }

  lemma ArithCases(s: Json, full: Path, value: Option<Json>, add: bool)
    ensures Arith(s, full, value, add) ==
      match Operands(s, full, value)
      case Err(c) => Err(c)
      case Ok((cur, n)) =>
        if add then (if cur + n > UINT256_MAX then Err(OVERFLOW) else Ok(SetIn(s, full, Int(cur + n))))
        else if cur < n then Err(UNDERFLOW) else Ok(SetIn(s, full, Int(cur - n)))
  {
    hide SetIn; hide Operands; hide UINT256_MAX;
  }

  lemma ArithCongruent(s: Json, t: Json, full: Path, value: Option<Json>, add: bool)
    requires SameOutside(s, t) && Outside(full)
    ensures SameOutcome(Arith(s, full, value, add), Arith(t, full, value, add))
  {
    hide SameOutside; hide Outside; hide SetIn; hide Operands; hide Arith; hide UINT256_MAX;
    OperandsCongruent(s, t, full, value);
    ArithCases(s, full, value, add);
    ArithCases(t, full, value, add);
    match Operands(s, full, value) {
      case Err(_) =>
      case Ok((cur, n)) => SetCongruent(s, t, full, Int(if add then cur + n else cur - n));
    }
  }

  /** Safe effects read and write the outside only: on states that agree there they give the same
      verdict and agree there again. */
  lemma {:induction false} CommitCongruent(s: Json, t: Json, ds: seq<Json>)
    requires SameOutside(s, t) && SafeDeltas(ds)
    ensures SameOutcome(Commit(s, ds), Commit(t, ds))
    decreases |ds|
  {
    hide SameOutside; hide ApplyDelta; hide SafeDelta;
    if ds != [] {
      DeltaCongruent(s, t, ds[0]);
      if ApplyDelta(s, ds[0]).Ok? {
        CommitCongruent(ApplyDelta(s, ds[0]).value, ApplyDelta(t, ds[0]).value, ds[1..]);
      }
    }
  }

  /** What an accepted event does to the outside. */
  datatype Op = Effects(staged: seq<Json>) | Feed(symbol: string, value: Json) | Tick(next: nat)

  ghost function Ops(l: Ledger, log: seq<Event>): seq<Op> {
    hide *;
    if log == [] then []
    else
      var n := |log| - 1;
      Ops(l, log[..n]) + OpsOf(LedgerAfter(l, log[..n]), log[n])
  }

  function OpsOf(l: Ledger, ev: Event): seq<Op> {
    match ev
    case CalFinalized(ch, _, _) => if ch in l.flights then [Effects(l.flights[ch].staged)] else []
    case FeedSubmitted(symbol, value) => [Feed(symbol, value)]
    case TickAdvanced(next) => [Tick(next)]
    case _ => []
  }

  function Perform(s: Json, op: Op): Result<Json, Code> {
    match op
    case Effects(staged) => Commit(s, staged)
    case Feed(symbol, value) => Ok(SetIn(s, FEEDS + [symbol], value))
    case Tick(next) => Ok(RecomputeBounded(SetIn(s, TICK, Int(next))))
  }

  function PerformAll(s: Json, ops: seq<Op>): Result<Json, Code> {
    if ops == [] then Ok(s)
    else
      var t :- PerformAll(s, ops[..|ops| - 1]);
      Perform(t, ops[|ops| - 1])
  }

  predicate SafeOp(op: Op) {
    op.Effects? ==> SafeDeltas(op.staged)
  }

  lemma GuardCongruent(s: Json, t: Json)
    requires SameOutside(s, t)
    ensures GuardTripped(s) == GuardTripped(t)
  {
    assert GUARD_THRESHOLD[0] == "governance" && GUARD_COUNTERS[0] == "failure_mode";
    SameOutsideGet(s, t, GUARD_THRESHOLD);
    SameOutsideGet(s, t, GUARD_COUNTERS);
    assert ObjAt(s, GUARD_COUNTERS) == ObjAt(t, GUARD_COUNTERS);
    hide GetIn; hide ObjAt; hide SameOutside; hide GUARD_THRESHOLD; hide GUARD_COUNTERS;
  }

  lemma TickCongruent(s: Json, t: Json, next: nat)
    requires SameOutside(s, t)
    ensures SameOutside(RecomputeBounded(SetIn(s, TICK, Int(next))), RecomputeBounded(SetIn(t, TICK, Int(next))))
  {
    OutsidePaths("");
    hide SameOutside; hide Outside; hide GetIn; hide SetIn; hide TICK; hide BOUNDED_MODE; hide GuardTripped;
    SetCongruent(s, t, TICK, Int(next));
    var s1, t1 := SetIn(s, TICK, Int(next)), SetIn(t, TICK, Int(next));
    GuardCongruent(s1, t1);
    SetCongruent(s1, t1, BOUNDED_MODE, Bool(GuardTripped(s1)));
  }

  lemma PerformCongruent(s: Json, t: Json, op: Op)
    requires SameOutside(s, t) && SafeOp(op)
    ensures SameOutcome(Perform(s, op), Perform(t, op))
  {
    hide SameOutside; hide Commit; hide RecomputeBounded; hide SetIn; hide SafeDeltas;
    match op {
      case Effects(staged) => CommitCongruent(s, t, staged);
      case Feed(symbol, value) => OutsidePaths(symbol); hide Outside; SetCongruent(s, t, FEEDS + [symbol], value);
      case Tick(next) => TickCongruent(s, t, next);
    }
  }

  lemma PerformOne(s: Json, op: Op)
    ensures PerformAll(s, [op]) == Perform(s, op)
  {
    hide Perform;
    assert [op][..0] == [];
  }

  lemma FinalizedOutside(s: Json, l: Ledger, ev: Event)
    requires hide *; Represents(s, l) && Sound(l.flights) && Apply(s, ev).Ok? && ev.CalFinalized?
    ensures ev.ch in l.flights && SafeDeltas(l.flights[ev.ch].staged)
    ensures OpsOf(l, ev) == [Effects(l.flights[ev.ch].staged)]
    ensures Commit(s, l.flights[ev.ch].staged).Ok?
    ensures SameOutside(Commit(s, l.flights[ev.ch].staged).value, Apply(s, ev).value)
  {
    Refines(s, l, ev);
    assert SoundFlight(l.flights[ev.ch]);
  }

  /** One accepted event acts on the outside as its operation alone. */
  lemma EventOutside(s: Json, l: Ledger, ev: Event)
    requires hide *; Represents(s, l) && Sound(l.flights) && Apply(s, ev).Ok?
    ensures PerformAll(s, OpsOf(l, ev)).Ok?
    ensures SameOutside(PerformAll(s, OpsOf(l, ev)).value, Apply(s, ev).value)
    ensures |OpsOf(l, ev)| <= 1 && forall op :: op in OpsOf(l, ev) ==> SafeOp(op)
  {
    hide Represents; hide SameOutside; hide Commit; hide RecomputeBounded; hide SetIn; hide SafeDeltas; hide Sound;
    hide PerformAll;
    SameOutsideReflexive(Apply(s, ev).value);
    if TouchesOutside(ev) {
      if ev.CalFinalized? { hide Apply; FinalizedOutside(s, l, ev); }
      PerformOne(s, OpsOf(l, ev)[0]);
    } else {
      hide Apply;
      Refines(s, l, ev);
      PerformNone(s);
    }
  }

  lemma PerformNone(s: Json)
    ensures PerformAll(s, []) == Ok(s)
  {
  }

  /** All or nothing, over every interleaved run: outside balances, fees, nonces and in-flight
      entries, the final state is the start state with the staged effects of the finalized CALs,
      the feeds and the ticks performed in log order, and nothing else. */
  lemma {:induction false} OnlyFinalizedEffects(s: Json, l: Ledger, log: seq<Event>)
    requires hide *; Represents(s, l) && Sound(l.flights) && SafeLog(log) && Materialize(Rust, s, log).Ok?
    ensures PerformAll(s, Ops(l, log)).Ok?
    ensures SameOutside(PerformAll(s, Ops(l, log)).value, Materialize(Rust, s, log).value)
    decreases |log|
  {
    SameOutsideReflexive(s);
    hide Represents; hide SameOutside; hide Apply; hide Sound; hide Perform; hide OpsOf; hide SafeOp;
    if log != [] {
      var n := |log| - 1;
      OnlyFinalizedEffects(s, l, log[..n]);
      RunKeeps(s, l, log[..n]);
      var t, m := Materialize(Rust, s, log[..n]).value, LedgerAfter(l, log[..n]);
      var p := PerformAll(s, Ops(l, log[..n])).value;
      var ops := OpsOf(m, log[n]);
      EventOutside(t, m, log[n]);
      if ops == [] {
        assert Ops(l, log) == Ops(l, log[..n]);
        SameOutsideTransitive(p, t, Materialize(Rust, s, log).value);
      } else {
        assert ops[..0] == [] && Ops(l, log)[..|Ops(l, log)| - 1] == Ops(l, log[..n]);
        assert ops[0] in ops;
        PerformCongruent(p, t, ops[0]);
        SameOutsideTransitive(Perform(p, ops[0]).value, Perform(t, ops[0]).value, Materialize(Rust, s, log).value);
      }
    }
  }
}
