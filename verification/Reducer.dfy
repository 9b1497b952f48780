/** The reducer, as the Rust port has it: one event applied to the state tree. Money is read as uint256
    and every credit is checked against 2^256 - 1; a nonce is read as an unbounded natural. */
module Reducer {
  import opened Wrappers
  import opened JsonTree
  import opened Events
  import opened Deltas

  const IN_FLIGHT: Path := ["cal", "in_flight"]
  const NONCES: Path := ["cal", "nonces"]
  const BALANCES: Path := ["ptra", "balances"]
  const FEES: Path := ["treasury", "collected_fees_window"]
  const TICK: Path := ["tick", "current"]
  const FEEDS: Path := ["oracles", "feeds"]
  const BOUNDED_MODE: Path := ["failure_mode", "is_bounded_mode"]
  const GUARD_COUNTERS: Path := ["failure_mode", "capture_guard_counters"]
  const GUARD_THRESHOLD: Path := ["governance", "params", "capture_guard_threshold"]

  datatype Stage = CREATED | SIGNED | VALIDATED | EXECUTED | SETTLED

  function StageName(s: Stage): string {
    match s
    case CREATED => "CREATED"
    case SIGNED => "SIGNED"
    case VALIDATED => "VALIDATED"
    case EXECUTED => "EXECUTED"
    case SETTLED => "SETTLED"
  }

  /** An in-flight CAL as the reducer writes it. */
  datatype Flight = Flight(agent: string, stage: Stage, escrow: nat, gas: nat, staged: seq<Json>)

  function Entry(f: Flight): Json {
    Obj(map[
      "agent_id" := Str(f.agent),
      "stage" := Str(StageName(f.stage)),
      "escrowed_ptra" := Int(f.escrow),
      "gas_consumed_ptra" := Int(f.gas),
      "staged" := Arr(f.staged)])
  }

  function AgentOf(h: Json): Option<string> {
    match h.Get("agent_id") case None => None case Some(v) => v.AsStr()
  }

  predicate IsAt(h: Json, stage: Stage) {
    h.Get("stage") == Some(Str(StageName(stage)))
  }

  function EscrowOf(h: Json): nat {
    UintOf(h.Get("escrowed_ptra"))
  }

  function StagedOf(h: Json): seq<Json> {
    match h.Get("staged") case None => [] case Some(v) => if v.Arr? then v.items else []
  }

  function SetField(s: Json, ch: string, field: string, x: Json): Json {
    SetIn(s, IN_FLIGHT + [ch] + [field], x)
  }

  function MoveStage(s: Json, ch: string, stage: Stage): Json {
    SetField(s, ch, "stage", Str(StageName(stage)))
  }

  function Balance(s: Json, a: string): nat {
    UintOf(GetIn(s, BALANCES + [a]))
  }

  function SetBalance(s: Json, a: string, n: nat): Json {
    SetIn(s, BALANCES + [a], Int(n))
  }

  function NatOf(v: Option<Json>): nat {
    match v case None => 0 case Some(j) => if j.Int? && 0 <= j.n then j.n else 0
  }

  function Nonce(s: Json, a: string): nat {
    NatOf(GetIn(s, NONCES + [a]))
  }

  function BumpNonce(s: Json, a: string): Json {
    SetIn(s, NONCES + [a], Int(Nonce(s, a) + 1))
  }

  function Fees(s: Json): nat {
    UintOf(GetIn(s, FEES))
  }

  function Credited(cur: nat, amount: nat): Result<nat, Code> {
    if cur + amount > UINT256_MAX then Err(OVERFLOW) else Ok(cur + amount)
  }

  function Credit(s: Json, a: string, amount: nat): Result<Json, Code> {
    var n :- Credited(Balance(s, a), amount);
    Ok(SetBalance(s, a, n))
  }

  function Debit(s: Json, a: string, amount: nat): Result<Json, Code> {
    if Balance(s, a) < amount then Err(INSUFFICIENT_BALANCE)
    else Ok(SetBalance(s, a, Balance(s, a) - amount))
  }

  function AddFees(s: Json, amount: nat): Result<Json, Code> {
    var n :- Credited(Fees(s), amount);
    Ok(SetIn(s, FEES, Int(n)))
  }

  function Close(s: Json, ch: string, agent: string): Json {
    DeleteIn(BumpNonce(s, agent), IN_FLIGHT + [ch])
  }

  /** Give back the refund, keep the rest of the escrow as fees, bump the nonce, drop the entry. */
  function Release(s: Json, ch: string, agent: string, escrow: nat, refund: nat): Result<Json, Code> {
    var s1 :- (if refund == 0 then Ok(s) else Credit(s, agent, refund));
    if escrow < refund then Err(UNDERFLOW)
    else
      var s2 :- AddFees(s1, escrow - refund);
      Ok(Close(s2, ch, agent))
  }

  /** Before VALIDATED nothing is escrowed; the event may still carry a spam charge. */
  function Charge(s: Json, ch: string, agent: string, charge: nat): Result<Json, Code> {
    var s1 :- (if charge == 0 then Ok(s) else Debit(s, agent, charge));
    var s2 :- AddFees(s1, charge);
    Ok(Close(s2, ch, agent))
  }

  function Fail(s: Json, ch: string, fee: Option<nat>, refund: Option<nat>): Result<Json, Code> {
    var h :- Find(s, ch);
    var agent :- Need(AgentOf(h));
    if IsAt(h, CREATED) || IsAt(h, SIGNED) then
      var charge :- NeedUint(fee);
      Charge(s, ch, agent, charge)
    else
      var back :- NeedUint(refund);
      Release(s, ch, agent, EscrowOf(h), back)
  }

  function Find(s: Json, ch: string): Result<Json, Code> {
    match GetIn(s, IN_FLIGHT + [ch]) case None => Err(UNKNOWN_CAL) case Some(h) => Ok(h)
  }

  function FindAt(s: Json, ch: string, stage: Stage): Result<Json, Code> {
    var h :- Find(s, ch);
    if IsAt(h, stage) then Ok(h) else Err(BAD_STAGE)
  }

  function ObjAt(s: Json, p: Path): map<string, Json> {
    match GetIn(s, p) case None => map[] case Some(v) => Fields(v)
  }

  /** An amount carried by an event: present and within uint256. */
  function NeedUint(v: Option<nat>): Result<nat, Code> {
    if v.Some? && v.value <= UINT256_MAX then Ok(v.value) else Err(BAD_DELTA)
  }

  predicate AgentBusy(s: Json, agent: string) {
    var all := ObjAt(s, IN_FLIGHT);
    exists ch :: ch in all && AgentOf(all[ch]) == Some(agent)
  }

  predicate GuardTripped(s: Json) {
    match GetIn(s, GUARD_THRESHOLD)
    case None => false
    case Some(t) =>
      var counters := ObjAt(s, GUARD_COUNTERS);
      && AsUint(t).Some?
      && exists k :: k in counters && AsUint(counters[k]).Some? && counters[k].n >= t.n
  }

  function RecomputeBounded(s: Json): Json {
    SetIn(s, BOUNDED_MODE, Bool(GuardTripped(s)))
  }

  function Apply(s: Json, ev: Event): Result<Json, Code> {
    match ev
    case CalCreated(ch, agent) =>
      if GetIn(s, IN_FLIGHT + [ch]).Some? then Err(DUPLICATE_CAL)
      else if AgentBusy(s, agent) then Err(AGENT_BUSY)
      else Ok(SetIn(s, IN_FLIGHT + [ch], Entry(Flight(agent, CREATED, 0, 0, []))))
    case CalSigned(ch) =>
      var _ :- FindAt(s, ch, CREATED);
      Ok(MoveStage(s, ch, SIGNED))
    case CalValidated(ch, escrow, _) =>
      var h :- FindAt(s, ch, SIGNED);
      var agent :- Need(AgentOf(h));
      var e :- NeedUint(escrow);
      var s1 :- Debit(s, agent, e);
      Ok(MoveStage(SetField(s1, ch, "escrowed_ptra", Int(e)), ch, VALIDATED))
    case CalExecuted(ch, effects, gas, _) =>
      var _ :- FindAt(s, ch, VALIDATED);
      var ds :- Need(effects);
      var g :- NeedUint(gas);
      Ok(MoveStage(SetField(SetField(s, ch, "staged", Arr(ds)), ch, "gas_consumed_ptra", Int(g)), ch, EXECUTED))
    case CalSettled(ch) =>
      var _ :- FindAt(s, ch, EXECUTED);
      Ok(MoveStage(s, ch, SETTLED))
    case CalFinalized(ch, refund, _) =>
      var h :- FindAt(s, ch, SETTLED);
      var agent :- Need(AgentOf(h));
      var back :- NeedUint(refund);
      var s1 :- Commit(s, StagedOf(h));
      Release(s1, ch, agent, EscrowOf(h), back)
    case CalFailed(ch, fee, refund, _) => Fail(s, ch, fee, refund)
    case CalExpired(ch, fee, refund, _) => Fail(s, ch, fee, refund)
    case Transferred(from, to, amount) =>
      var n :- NeedUint(Some(amount));
      var s1 :- Debit(s, from, n);
      Credit(s1, to, n)
    case ShadowInit(addr) =>
      if GetIn(s, BALANCES + [addr]).Some? then Ok(s) else Ok(SetBalance(s, addr, 0))
    case FeedSubmitted(symbol, value) => Ok(SetIn(s, FEEDS + [symbol], value))
    case TickAdvanced(next) =>
      var _ :- NeedUint(Some(next));
      var tick := GetIn(s, TICK);
      if tick.None? || AsUint(tick.value).None? || next <= tick.value.n then Err(BAD_TICK)
      else Ok(RecomputeBounded(SetIn(s, TICK, Int(next))))
    case Unreadable(knownType) => Err(if knownType then BAD_DELTA else UNKNOWN_EVENT)
  }

  /** The staged effects of a finalized CAL, committed one after the other. */
  method CommitStaged(s: Json, staged: seq<Json>) returns (r: Result<Json, Code>)
    ensures r == Commit(s, staged)
  {
    var cur := s;
    for i := 0 to |staged|
      invariant Commit(s, staged) == Commit(cur, staged[i..])
    {
      match ApplyDelta(cur, staged[i]) {
        case Err(c) => return Err(c);
        case Ok(t) => cur := t;
      }
      assert staged[i..][1..] == staged[i + 1..];
    }
    return Ok(cur);
  }

  /** The flag is raised by the first counter at or above the threshold and never lowered again. */
  method ScanCounters(s: Json) returns (bounded: bool)
    ensures bounded == GuardTripped(s)
  {
    bounded := false;
    var t := GetIn(s, GUARD_THRESHOLD);
    if t.Some? && AsUint(t.value).Some? {
      var counters := ObjAt(s, GUARD_COUNTERS);
      var left := counters.Keys;
      while left != {}
        invariant left <= counters.Keys
        invariant bounded
          <==> exists k :: k in counters && k !in left && AsUint(counters[k]).Some? && counters[k].n >= t.value.n
        decreases |left|
      {
        var k :| k in left;
        if AsUint(counters[k]).Some? && counters[k].n >= t.value.n {
          bounded := true;
        }
        left := left - {k};
      }
    }
  }
}
