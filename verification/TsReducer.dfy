/** The reducer as the TypeScript port has it. Its integers are unbounded: an effect may add or subtract
    any integer, the capture guard and the tick compare any integers, and credits are not checked. */
module TsReducer {
  import opened Wrappers
  import opened JsonTree
  import opened Events
  import opened Deltas
  import opened Reducer

  // --- the tree ---

  /** Deleting through a null, or anything below it, leaves an empty object there. */
  function TsDeleteIn(v: Json, path: Path): Json
    requires path != []
    decreases |path|
  {
    if v.Null? then Obj(map[])
    else if !v.Obj? then v
    else if |path| == 1 then Obj(v.fields - {path[0]})
    else if path[0] in v.fields then Obj(v.fields[path[0] := TsDeleteIn(v.fields[path[0]], path[1..])])
    else v
  }

  function IntOr0(v: Option<Json>): int {
    match v case Some(Int(n)) => n case _ => 0
  }

  // --- effects ---

  /** The operands of add and sub, any integers; a target that is absent or null counts as zero. */
  function TsOperands(s: Json, full: Path, value: Option<Json>): Result<(int, int), Code> {
    var cur :- (match GetIn(s, full) case None => Ok(0) case Some(Null) => Ok(0) case Some(Int(n)) => Ok(n)
      case Some(_) => Err(BAD_DELTA));
    match value case Some(Int(n)) => Ok((cur, n)) case _ => Err(BAD_DELTA)
  }

  /** A sum is only bounded above, a difference only below. */
  function TsArith(s: Json, full: Path, value: Option<Json>, add: bool): Result<Json, Code> {
    var (cur, n) :- TsOperands(s, full, value);
    if add && cur + n > UINT256_MAX then Err(OVERFLOW)
    else if !add && cur - n < 0 then Err(UNDERFLOW)
    else Ok(SetIn(s, full, Int(if add then cur + n else cur - n)))
  }

  function TsApplyDelta(s: Json, d: Json): Result<Json, Code> {
    match Decode(d)
    case None => Err(BAD_DELTA)
    case Some(delta) =>
      match delta.op
      case Set => EnforceOwnerRecord(SetIn(s, delta.full, delta.value.GetOr(Null)), delta.full)
      case Delete => Ok(TsDeleteIn(s, delta.full))
      case Add => TsArith(s, delta.full, delta.value, true)
      case Sub => TsArith(s, delta.full, delta.value, false)
  }

  function TsCommit(s: Json, ds: seq<Json>): Result<Json, Code>
    decreases |ds|
  {
    if ds == [] then Ok(s)
    else
      var t :- TsApplyDelta(s, ds[0]);
      TsCommit(t, ds[1..])
  }

  // --- registers ---

  function TsBalance(s: Json, a: string): int {
    IntOr0(GetIn(s, BALANCES + [a]))
  }

  function TsSetBalance(s: Json, a: string, n: int): Json {
    SetIn(s, BALANCES + [a], Int(n))
  }

  function TsDebit(s: Json, a: string, amount: nat): Result<Json, Code> {
    if TsBalance(s, a) < amount then Err(INSUFFICIENT_BALANCE)
    else Ok(TsSetBalance(s, a, TsBalance(s, a) - amount))
  }

  function TsCredit(s: Json, a: string, amount: nat): Json {
    TsSetBalance(s, a, TsBalance(s, a) + amount)
  }

  function TsAddFees(s: Json, amount: int): Json {
    SetIn(s, FEES, Int(IntOr0(GetIn(s, FEES)) + amount))
  }

  function TsClose(s: Json, ch: string, agent: string): Json {
    TsDeleteIn(SetIn(s, NONCES + [agent], Int(IntOr0(GetIn(s, NONCES + [agent])) + 1)), IN_FLIGHT + [ch])
  }

  // --- events ---

  /** Only an object counts as an entry. */
  function TsFind(s: Json, ch: string): Result<Json, Code> {
    match GetIn(s, IN_FLIGHT + [ch])
    case None => Err(UNKNOWN_CAL)
    case Some(h) => if h.Obj? then Ok(h) else Err(UNKNOWN_CAL)
  }

  function TsFindAt(s: Json, ch: string, stage: Stage): Result<Json, Code> {
    var h :- TsFind(s, ch);
    if IsAt(h, stage) then Ok(h) else Err(BAD_STAGE)
  }

  function TsEscrowOf(h: Json): int {
    IntOr0(h.Get("escrowed_ptra"))
  }

  function TsRelease(s: Json, ch: string, agent: string, escrow: int, refund: nat): Result<Json, Code> {
    var s1 := if refund > 0 then TsCredit(s, agent, refund) else s;
    if refund > escrow then Err(UNDERFLOW) else Ok(TsClose(TsAddFees(s1, escrow - refund), ch, agent))
  }

  function TsCharge(s: Json, ch: string, agent: string, charge: nat): Result<Json, Code> {
    var s1 :- TsDebit(s, agent, charge);
    Ok(TsClose(TsAddFees(if charge > 0 then s1 else s, charge), ch, agent))
  }

  function TsFail(s: Json, ch: string, fee: Option<nat>, refund: Option<nat>): Result<Json, Code> {
    var h :- TsFind(s, ch);
    var agent :- Need(AgentOf(h));
    if IsAt(h, CREATED) || IsAt(h, SIGNED) then
      var charge :- NeedUint(fee);
      TsCharge(s, ch, agent, charge)
    else
      var back :- NeedUint(refund);
      TsRelease(s, ch, agent, TsEscrowOf(h), back)
  }

  predicate TsGuardTripped(s: Json) {
    var t, counters := GetIn(s, GUARD_THRESHOLD), ObjAt(s, GUARD_COUNTERS);
    && t.Some? && t.value.Int?
    && exists k :: k in counters && counters[k].Int? && counters[k].n >= t.value.n
  }

  function TsRecomputeBounded(s: Json): Json {
    SetIn(s, BOUNDED_MODE, Bool(TsGuardTripped(s)))
  }

  function TsApply(s: Json, ev: Event): Result<Json, Code> {
    match ev
    case CalCreated(ch, agent) =>
      if TsFind(s, ch).Ok? then Err(DUPLICATE_CAL)
      else if AgentBusy(s, agent) then Err(AGENT_BUSY)
      else Ok(SetIn(s, IN_FLIGHT + [ch], Entry(Flight(agent, CREATED, 0, 0, []))))
    case CalSigned(ch) =>
      var _ :- TsFindAt(s, ch, CREATED);
      Ok(MoveStage(s, ch, SIGNED))
    case CalValidated(ch, escrow, _) =>
      var h :- TsFindAt(s, ch, SIGNED);
      var agent :- Need(AgentOf(h));
      var e :- NeedUint(escrow);
      var s1 :- TsDebit(s, agent, e);
      Ok(MoveStage(SetField(s1, ch, "escrowed_ptra", Int(e)), ch, VALIDATED))
    case CalExecuted(ch, effects, gas, _) =>
      var _ :- TsFindAt(s, ch, VALIDATED);
      var ds :- Need(effects);
      var g :- NeedUint(gas);
      Ok(MoveStage(SetField(SetField(s, ch, "staged", Arr(ds)), ch, "gas_consumed_ptra", Int(g)), ch, EXECUTED))
    case CalSettled(ch) =>
      var _ :- TsFindAt(s, ch, EXECUTED);
      Ok(MoveStage(s, ch, SETTLED))
    case CalFinalized(ch, refund, _) =>
      var h :- TsFindAt(s, ch, SETTLED);
      var agent :- Need(AgentOf(h));
      var back :- NeedUint(refund);
      var s1 :- TsCommit(s, StagedOf(h));
      TsRelease(s1, ch, agent, TsEscrowOf(h), back)
    case CalFailed(ch, fee, refund, _) => TsFail(s, ch, fee, refund)
    case CalExpired(ch, fee, refund, _) => TsFail(s, ch, fee, refund)
    case Transferred(from, to, amount) =>
      var n :- NeedUint(Some(amount));
      var s1 :- TsDebit(s, from, n);
      Ok(TsCredit(s1, to, n))
    case ShadowInit(addr) =>
      if GetIn(s, BALANCES + [addr]).Some? then Ok(s) else Ok(TsSetBalance(s, addr, 0))
    case FeedSubmitted(symbol, value) => Ok(SetIn(s, FEEDS + [symbol], value))
    case TickAdvanced(next) =>
      var _ :- NeedUint(Some(next));
      (match GetIn(s, TICK)
       case Some(Int(cur)) => if next <= cur then Err(BAD_TICK) else Ok(TsRecomputeBounded(SetIn(s, TICK, Int(next))))
       case _ => Err(BAD_TICK))
    case Unreadable(knownType) => Err(if knownType then BAD_DELTA else UNKNOWN_EVENT)
  }

  // --- the loops of this port ---

  /** The guard loop: it starts lowered, looks at every counter, and is never lowered again. */
  method TsScanCounters(s: Json) returns (bounded: bool)
    ensures bounded == TsGuardTripped(s)
  {
    bounded := false;
    var t := GetIn(s, GUARD_THRESHOLD);
    if t.Some? && t.value.Int? {
      var counters := ObjAt(s, GUARD_COUNTERS);
      var left := counters.Keys;
      while left != {}
        invariant left <= counters.Keys
        invariant bounded
          <==> exists k :: k in counters && k !in left && counters[k].Int? && counters[k].n >= t.value.n
        decreases |left|
      {
        var k :| k in left;
        if counters[k].Int? && counters[k].n >= t.value.n {
          bounded := true;
        }
        left := left - {k};
      }
    }
  }

  method TsCommitStaged(s: Json, staged: seq<Json>) returns (r: Result<Json, Code>)
    ensures r == TsCommit(s, staged)
  {
    var cur := s;
    for i := 0 to |staged|
      invariant TsCommit(s, staged) == TsCommit(cur, staged[i..])
    {
      match TsApplyDelta(cur, staged[i]) {
        case Err(c) => return Err(c);
        case Ok(t) => cur := t;
      }
      assert staged[i..][1..] == staged[i + 1..];
    }
    return Ok(cur);
  }
}
