/** The reducer on the typed ledger, and the proof that the reducer on the state tree refines it. */
module LedgerStep {
  import opened Wrappers
  import opened JsonTree
  import opened Events
  import opened Deltas
  import opened Reducer
  import opened Ledgers

  function Debited(l: Ledger, a: string, n: nat): Result<Ledger, Code> {
    if At(l.balances, a) < n then Err(INSUFFICIENT_BALANCE)
    else Ok(l.(balances := l.balances[a := At(l.balances, a) - n]))
  }

  function Paid(l: Ledger, a: string, n: nat): Result<Ledger, Code> {
    var m :- Credited(At(l.balances, a), n);
    Ok(l.(balances := l.balances[a := m]))
  }

  function Collected(l: Ledger, n: nat): Result<Ledger, Code> {
    var m :- Credited(l.fees, n);
    Ok(l.(fees := m))
  }

  function Closed(l: Ledger, ch: string, agent: string): Ledger {
    l.(nonces := l.nonces[agent := At(l.nonces, agent) + 1], flights := l.flights - {ch})
  }

  function Released(l: Ledger, ch: string, f: Flight, refund: nat): Result<Ledger, Code> {
    var l1 :- (if refund == 0 then Ok(l) else Paid(l, f.agent, refund));
    if f.escrow < refund then Err(UNDERFLOW)
    else
      var l2 :- Collected(l1, f.escrow - refund);
      Ok(Closed(l2, ch, f.agent))
  }

  function Charged(l: Ledger, ch: string, agent: string, charge: nat): Result<Ledger, Code> {
    var l1 :- (if charge == 0 then Ok(l) else Debited(l, agent, charge));
    var l2 :- Collected(l1, charge);
    Ok(Closed(l2, ch, agent))
  }

  function Failed(l: Ledger, ch: string, fee: Option<nat>, refund: Option<nat>): Result<Ledger, Code> {
    var f :- Lookup(l, ch);
    if f.stage == CREATED || f.stage == SIGNED then
      var charge :- NeedUint(fee);
      Charged(l, ch, f.agent, charge)
    else
      var back :- NeedUint(refund);
      Released(l, ch, f, back)
  }

  function Lookup(l: Ledger, ch: string): Result<Flight, Code> {
    if ch in l.flights then Ok(l.flights[ch]) else Err(UNKNOWN_CAL)
  }

  function LookupAt(l: Ledger, ch: string, stage: Stage): Result<Flight, Code> {
    var f :- Lookup(l, ch);
    if f.stage == stage then Ok(f) else Err(BAD_STAGE)
  }

  predicate Busy(l: Ledger, agent: string) {
    exists ch :: ch in l.flights && l.flights[ch].agent == agent
  }

  /** The reducer on the ledger. The staged effects of a finalized CAL and the events that only
      touch the outside leave it alone. */
  function Step(l: Ledger, ev: Event): Result<Ledger, Code> {
    match ev
    case CalCreated(ch, agent) =>
      if ch in l.flights then Err(DUPLICATE_CAL)
      else if Busy(l, agent) then Err(AGENT_BUSY)
      else Ok(l.(flights := l.flights[ch := Flight(agent, CREATED, 0, 0, [])]))
    case CalSigned(ch) =>
      var f :- LookupAt(l, ch, CREATED);
      Ok(l.(flights := l.flights[ch := f.(stage := SIGNED)]))
    case CalValidated(ch, escrow, _) =>
      var f :- LookupAt(l, ch, SIGNED);
      var e :- NeedUint(escrow);
      var l1 :- Debited(l, f.agent, e);
      Ok(l1.(flights := l.flights[ch := f.(stage := VALIDATED, escrow := e)]))
    case CalExecuted(ch, effects, gas, _) =>
      var f :- LookupAt(l, ch, VALIDATED);
      var ds :- Need(effects);
      var g :- NeedUint(gas);
      Ok(l.(flights := l.flights[ch := f.(stage := EXECUTED, staged := ds, gas := g)]))
    case CalSettled(ch) =>
      var f :- LookupAt(l, ch, EXECUTED);
      Ok(l.(flights := l.flights[ch := f.(stage := SETTLED)]))
    case CalFinalized(ch, refund, _) =>
      var f :- LookupAt(l, ch, SETTLED);
      var back :- NeedUint(refund);
      Released(l, ch, f, back)
    case CalFailed(ch, fee, refund, _) => Failed(l, ch, fee, refund)
    case CalExpired(ch, fee, refund, _) => Failed(l, ch, fee, refund)
    case Transferred(from, to, amount) =>
      var n :- NeedUint(Some(amount));
      var l1 :- Debited(l, from, n);
      Paid(l1, to, n)
    case ShadowInit(addr) =>
      if addr in l.balances then Ok(l) else Ok(l.(balances := l.balances[addr := 0]))
    case FeedSubmitted(_, _) => Ok(l)
    case TickAdvanced(_) => Ok(l)
    case Unreadable(knownType) => Err(if knownType then BAD_DELTA else UNKNOWN_EVENT)
  }

  /** A staged effect that cannot reach the protected part. */
  predicate SafeDelta(d: Json) {
    Decode(d).Some? ==> Outside(Decode(d).value.full)
  }

  predicate SafeDeltas(ds: seq<Json>) {
    forall i :: 0 <= i < |ds| ==> SafeDelta(ds[i])
  }

  predicate SafeEvent(ev: Event) {
    ev.CalExecuted? && ev.effects.Some? ==> SafeDeltas(ev.effects.value)
  }

  /** What every reachable set of in-flight CALs satisfies; at most one per agent. */
  ghost predicate Sound(fl: map<string, Flight>) {
    && (forall ch :: ch in fl ==> SoundFlight(fl[ch]))
    && forall c, d :: c in fl && d in fl && fl[c].agent == fl[d].agent ==> c == d
  }

  predicate SoundFlight(f: Flight) {
    && f.escrow <= UINT256_MAX
    && (f.stage == CREATED || f.stage == SIGNED ==> f.escrow == 0)
    && (f.stage != EXECUTED && f.stage != SETTLED ==> f.staged == [])
    && SafeDeltas(f.staged)
  }

  lemma StepKeepsSound(l: Ledger, ev: Event)
    requires hide *; Sound(l.flights) && SafeEvent(ev) && Step(l, ev).Ok?
    ensures Sound(Step(l, ev).value.flights)
  {
    hide SafeDelta; hide Debited; hide Collected; hide Paid;
    var fl, gl := l.flights, Step(l, ev).value.flights;
    match ev {
      case CalCreated(ch, agent) => SoundPut(fl, ch, Flight(agent, CREATED, 0, 0, []));
      case CalSigned(ch) => SoundPut(fl, ch, fl[ch].(stage := SIGNED));
      case CalValidated(ch, e, _) => SoundPut(fl, ch, fl[ch].(stage := VALIDATED, escrow := e.value));
      case CalExecuted(ch, ds, g, _) =>
        SoundPut(fl, ch, fl[ch].(stage := EXECUTED, staged := ds.value, gas := g.value));
      case CalSettled(ch) => SoundPut(fl, ch, fl[ch].(stage := SETTLED));
      case _ => FlightsKept(l, ev);
    }
  }

  /** The events that do not write an entry keep all entries, or drop the one they close. */
  lemma FlightsKept(l: Ledger, ev: Event)
    requires Step(l, ev).Ok?
    requires !ev.CalCreated? && !ev.CalSigned? && !ev.CalValidated? && !ev.CalExecuted? && !ev.CalSettled?
    ensures Step(l, ev).value.flights == if Closes(ev) then l.flights - {ev.ch} else l.flights
  {
  }

  predicate Closes(ev: Event) {
    ev.CalFinalized? || ev.CalFailed? || ev.CalExpired?
  }

  lemma SoundPut(fl: map<string, Flight>, ch: string, f: Flight)
    requires Sound(fl) && SoundFlight(f)
    requires if ch in fl then fl[ch].agent == f.agent else forall c :: c in fl ==> fl[c].agent != f.agent
    ensures Sound(fl[ch := f])
  {
  }

  // --- refinement, one arm at a time ---

  ghost predicate Agrees(r: Result<Json, Code>, t: Result<Ledger, Code>) {
    match r
    case Ok(s) => t.Ok? && Represents(s, t.value)
    case Err(c) => t == Err(c)
  }

  lemma DebitRefines(s: Json, l: Ledger, a: string, n: nat)
    requires Represents(s, l)
    ensures Agrees(Debit(s, a, n), Debited(l, a, n))
    ensures Debit(s, a, n).Ok? ==> SameOutside(s, Debit(s, a, n).value)
  {
    PutBalance(s, l, a, if Balance(s, a) < n then 0 else Balance(s, a) - n);
    hide Represents; hide SetBalance; hide Balance; hide SameOutside;
  }

  lemma CreditRefines(s: Json, l: Ledger, a: string, n: nat)
    requires Represents(s, l)
    ensures Agrees(Credit(s, a, n), Paid(l, a, n))
    ensures Credit(s, a, n).Ok? ==> SameOutside(s, Credit(s, a, n).value)
  {
    PutBalance(s, l, a, if Balance(s, a) + n > UINT256_MAX then 0 else Balance(s, a) + n);
    hide Represents; hide SetBalance; hide Balance; hide SameOutside;
  }

  lemma AddFeesRefines(s: Json, l: Ledger, n: nat)
    requires Represents(s, l)
    ensures Agrees(AddFees(s, n), Collected(l, n))
    ensures AddFees(s, n).Ok? ==> SameOutside(s, AddFees(s, n).value)
  {
    if AddFees(s, n).Ok? {
      PutFees(s, l, Fees(s) + n);
    }
  }

  lemma CloseRefines(s: Json, l: Ledger, ch: string, agent: string)
    requires Represents(s, l)
    ensures Represents(Close(s, ch, agent), Closed(l, ch, agent))
    ensures SameOutside(s, Close(s, ch, agent))
  {
    PutNonce(s, l, agent);
    DropFlight(BumpNonce(s, agent), l.(nonces := l.nonces[agent := At(l.nonces, agent) + 1]), ch);
    SameOutsideTransitive(s, BumpNonce(s, agent), Close(s, ch, agent));
  }

  lemma ReleaseRefines(s: Json, l: Ledger, ch: string, f: Flight, refund: nat)
    requires hide *; Represents(s, l)
    ensures Agrees(Release(s, ch, f.agent, f.escrow, refund), Released(l, ch, f, refund))
    ensures Release(s, ch, f.agent, f.escrow, refund).Ok?
      ==> SameOutside(s, Release(s, ch, f.agent, f.escrow, refund).value)
  {
    hide Represents; hide Credit; hide AddFees; hide Close; hide Paid; hide Collected; hide Closed; hide SameOutside;
    CreditRefines(s, l, f.agent, refund);
    assert SameOutside(s, s) by { SameOutsideReflexive(s); }
    var r1: Result<Json, Code> := if refund == 0 then Ok(s) else Credit(s, f.agent, refund);
    if r1.Ok? && refund <= f.escrow {
      var l1 := (if refund == 0 then Ok(l) else Paid(l, f.agent, refund)).value;
      AddFeesRefines(r1.value, l1, f.escrow - refund);
      var r2 := AddFees(r1.value, f.escrow - refund);
      if r2.Ok? {
        CloseRefines(r2.value, Collected(l1, f.escrow - refund).value, ch, f.agent);
        SameOutsideTransitive(s, r1.value, r2.value);
        SameOutsideTransitive(s, r2.value, Close(r2.value, ch, f.agent));
      }
    }
  }

  lemma SameOutsideReflexive(s: Json)
    ensures SameOutside(s, s)
  {
  }

  lemma FindRefines(s: Json, l: Ledger, ch: string)
    requires Represents(s, l)
    ensures Find(s, ch) == if ch in l.flights then Ok(Entry(l.flights[ch])) else Err(UNKNOWN_CAL)
    ensures GetIn(s, IN_FLIGHT + [ch]).Some? <==> ch in l.flights
    ensures ch in l.flights ==>
      (forall st :: FindAt(s, ch, st) == if l.flights[ch].stage == st then Ok(Entry(l.flights[ch])) else Err(BAD_STAGE))
    ensures ch !in l.flights ==> (forall st :: FindAt(s, ch, st) == Err(UNKNOWN_CAL))
  {
    ChildAt(s, IN_FLIGHT, ch);
    if ch in l.flights {
      EntryFields(l.flights[ch]);
    }
    hide IN_FLIGHT; hide Entry; hide GetIn; hide ObjAt; hide IsAt;
  }

  lemma BusyRefines(s: Json, l: Ledger, agent: string)
    requires Represents(s, l)
    ensures AgentBusy(s, agent) == Busy(l, agent)
  {
    forall ch | ch in l.flights
      ensures AgentOf(ObjAt(s, IN_FLIGHT)[ch]) == Some(l.flights[ch].agent)
    {
      EntryFields(l.flights[ch]);
    }
    hide Entry; hide AgentOf; hide IN_FLIGHT; hide ObjAt;
  }

  lemma ChargeRefines(s: Json, l: Ledger, ch: string, agent: string, charge: nat)
    requires hide *; Represents(s, l)
    ensures Agrees(Charge(s, ch, agent, charge), Charged(l, ch, agent, charge))
    ensures Charge(s, ch, agent, charge).Ok? ==> SameOutside(s, Charge(s, ch, agent, charge).value)
  {
    hide Represents; hide Debit; hide AddFees; hide Close; hide Debited; hide Collected; hide Closed; hide SameOutside;
    DebitRefines(s, l, agent, charge);
    SameOutsideReflexive(s);
    var r1: Result<Json, Code> := if charge == 0 then Ok(s) else Debit(s, agent, charge);
    if r1.Ok? {
      var l1 := (if charge == 0 then Ok(l) else Debited(l, agent, charge)).value;
      AddFeesRefines(r1.value, l1, charge);
      var r2 := AddFees(r1.value, charge);
      if r2.Ok? {
        CloseRefines(r2.value, Collected(l1, charge).value, ch, agent);
        SameOutsideTransitive(s, r1.value, r2.value);
        SameOutsideTransitive(s, r2.value, Close(r2.value, ch, agent));
      }
    }
  }

  lemma FailRefines(s: Json, l: Ledger, ch: string, fee: Option<nat>, refund: Option<nat>)
    requires hide *; Represents(s, l) && Sound(l.flights)
    ensures Agrees(Fail(s, ch, fee, refund), Failed(l, ch, fee, refund))
    ensures Fail(s, ch, fee, refund).Ok? ==> SameOutside(s, Fail(s, ch, fee, refund).value)
  {
    FindRefines(s, l, ch);
    if ch in l.flights {
      var f := l.flights[ch];
      assert f.escrow <= UINT256_MAX;
      hide *;
      EntryFields(f);
      if fee.Some? { ChargeRefines(s, l, ch, f.agent, fee.value); }
      if refund.Some? { ReleaseRefines(s, l, ch, f, refund.value); }
      FailCases(s, l, ch, f, fee, refund);
    }
  }

  lemma FailCases(s: Json, l: Ledger, ch: string, f: Flight, fee: Option<nat>, refund: Option<nat>)
    requires ch in l.flights && l.flights[ch] == f && Find(s, ch) == Ok(Entry(f))
    requires AgentOf(Entry(f)) == Some(f.agent) && EscrowOf(Entry(f)) == f.escrow
    requires IsAt(Entry(f), CREATED) <==> f.stage == CREATED
    requires IsAt(Entry(f), SIGNED) <==> f.stage == SIGNED
    ensures Fail(s, ch, fee, refund) ==
      if f.stage == CREATED || f.stage == SIGNED then
        if NeedUint(fee).Ok? then Charge(s, ch, f.agent, fee.value) else Err(BAD_DELTA)
      else
        if NeedUint(refund).Ok? then Release(s, ch, f.agent, f.escrow, refund.value) else Err(BAD_DELTA)
    ensures Failed(l, ch, fee, refund) ==
      if f.stage == CREATED || f.stage == SIGNED then
        if NeedUint(fee).Ok? then Charged(l, ch, f.agent, fee.value) else Err(BAD_DELTA)
      else
        if NeedUint(refund).Ok? then Released(l, ch, f, refund.value) else Err(BAD_DELTA)
  {
    hide Charge; hide Release; hide Charged; hide Released; hide Entry; hide IsAt; hide AgentOf; hide EscrowOf;
    hide Find;
  }

  lemma FieldRefines(s: Json, l: Ledger, ch: string, field: string, x: Json, f: Flight)
    requires Represents(s, l) && ch in l.flights && SetIn(Entry(l.flights[ch]), [field], x) == Entry(f)
    ensures Represents(SetField(s, ch, field, x), l.(flights := l.flights[ch := f]))
    ensures SameOutside(s, SetField(s, ch, field, x))
  {
    PutFlight(s, l, ch, [field], x, f);
  }

  lemma MoveRefines(s: Json, l: Ledger, ch: string, st: Stage)
    requires Represents(s, l) && ch in l.flights
    ensures Represents(MoveStage(s, ch, st), l.(flights := l.flights[ch := l.flights[ch].(stage := st)]))
    ensures SameOutside(s, MoveStage(s, ch, st))
  {
    EntryStage(l.flights[ch], st);
    hide Represents; hide Entry; hide SameOutside; hide StageName; hide SetField; hide SetIn;
    FieldRefines(s, l, ch, "stage", Str(StageName(st)), l.flights[ch].(stage := st));
  }

  lemma ValidatedRefines(s: Json, l: Ledger, ch: string, e: nat)
    requires Represents(s, l) && ch in l.flights
    ensures var f := l.flights[ch].(stage := VALIDATED, escrow := e);
      var t := MoveStage(SetField(s, ch, "escrowed_ptra", Int(e)), ch, VALIDATED);
      Represents(t, l.(flights := l.flights[ch := f])) && SameOutside(s, t)
  {
    hide *;
    var f := l.flights[ch];
    EntryEscrow(f, e);
    FieldRefines(s, l, ch, "escrowed_ptra", Int(e), f.(escrow := e));
    var s1 := SetField(s, ch, "escrowed_ptra", Int(e));
    MoveRefines(s1, l.(flights := l.flights[ch := f.(escrow := e)]), ch, VALIDATED);
    SameOutsideTransitive(s, s1, MoveStage(s1, ch, VALIDATED));
    assert l.flights[ch := f.(escrow := e)][ch := f.(stage := VALIDATED, escrow := e)]
        == l.flights[ch := f.(stage := VALIDATED, escrow := e)];
  }

  lemma ExecutedRefines(s: Json, l: Ledger, ch: string, ds: seq<Json>, g: nat)
    requires Represents(s, l) && ch in l.flights
    ensures var f := l.flights[ch].(stage := EXECUTED, staged := ds, gas := g);
      var t := MoveStage(SetField(SetField(s, ch, "staged", Arr(ds)), ch, "gas_consumed_ptra", Int(g)), ch, EXECUTED);
      Represents(t, l.(flights := l.flights[ch := f])) && SameOutside(s, t)
  {
    hide *;
    var f := l.flights[ch];
    var f1, f2 := f.(staged := ds), f.(staged := ds, gas := g);
    EntryStaged(f, ds);
    EntryGas(f1, g);
    FieldRefines(s, l, ch, "staged", Arr(ds), f1);
    var s1 := SetField(s, ch, "staged", Arr(ds));
    var l1 := l.(flights := l.flights[ch := f1]);
    FieldRefines(s1, l1, ch, "gas_consumed_ptra", Int(g), f2);
    var s2 := SetField(s1, ch, "gas_consumed_ptra", Int(g));
    var l2 := l.(flights := l.flights[ch := f2]);
    assert l1.flights[ch := f2] == l2.flights;
    MoveRefines(s2, l2, ch, EXECUTED);
    SameOutsideTransitive(s, s1, s2);
    SameOutsideTransitive(s, s2, MoveStage(s2, ch, EXECUTED));
    assert l2.flights[ch := f2.(stage := EXECUTED)] == l.flights[ch := f2.(stage := EXECUTED)];
  }

  lemma EnforceReturns(s: Json, full: Path)
    ensures EnforceOwnerRecord(s, full).Ok? ==> EnforceOwnerRecord(s, full).value == s
  {
    hide GetIn;
  }

  lemma DeltaRefines(s: Json, l: Ledger, d: Json)
    requires hide *; Represents(s, l) && SafeDelta(d)
    ensures ApplyDelta(s, d).Ok? ==> Represents(ApplyDelta(s, d).value, l)
  {
    hide Represents; hide Decode; hide Operands; hide SetIn; hide DeleteIn; hide EnforceOwnerRecord; hide Outside;
    if Decode(d).Some? {
      var full := Decode(d).value.full;
      forall x: Json ensures Represents(SetIn(s, full, x), l) {
        PutOutside(s, l, full, x);
      }
      PutOutside(s, l, full, Null);
      EnforceReturns(SetIn(s, full, Decode(d).value.value.GetOr(Null)), full);
    }
  }

  lemma {:induction false} CommitRefines(s: Json, l: Ledger, ds: seq<Json>)
    requires hide *; Represents(s, l) && SafeDeltas(ds)
    ensures Commit(s, ds).Ok? ==> Represents(Commit(s, ds).value, l)
    decreases |ds|
  {
    hide Represents; hide ApplyDelta; hide SafeDelta;
    if ds != [] && ApplyDelta(s, ds[0]).Ok? {
      DeltaRefines(s, l, ds[0]);
      CommitRefines(ApplyDelta(s, ds[0]).value, l, ds[1..]);
    }
  }

  /** A staged effect of a CAL that is about to finalize does not commit. */
  predicate CommitFails(s: Json, l: Ledger, ev: Event) {
    hide *;
    ev.CalFinalized? && ev.ch in l.flights && Commit(s, l.flights[ev.ch].staged).Err?
  }

  predicate TouchesOutside(ev: Event) {
    ev.CalFinalized? || ev.FeedSubmitted? || ev.TickAdvanced?
  }

  lemma SoundEntry(l: Ledger, ch: string)
    requires Sound(l.flights) && ch in l.flights
    ensures l.flights[ch].escrow <= UINT256_MAX && SafeDeltas(l.flights[ch].staged)
  {
    assert SoundFlight(l.flights[ch]);
  }

  lemma FinalizedRefines(s: Json, l: Ledger, ev: Event)
    requires Represents(s, l) && Sound(l.flights) && ev.CalFinalized?
    ensures !CommitFails(s, l, ev) ==> Agrees(Apply(s, ev), Step(l, ev))
    ensures CommitFails(s, l, ev) ==> Apply(s, ev).Err?
    ensures Apply(s, ev).Ok? ==>
      SameOutside(Commit(s, l.flights[ev.ch].staged).value, Apply(s, ev).value)
  {
    hide Represents; hide Release; hide Released; hide Entry; hide IsAt; hide AgentOf; hide StagedOf; hide Commit;
    hide SameOutside; hide FindAt; hide Find; hide Sound; hide EscrowOf; hide SafeDeltas;
    var ch := ev.ch;
    FindRefines(s, l, ch);
    if ch in l.flights {
      var f := l.flights[ch];
      SoundEntry(l, ch);
      EntryFields(f);
      if Commit(s, f.staged).Ok? && ev.refund.Some? {
        CommitRefines(s, l, f.staged);
        ReleaseRefines(Commit(s, f.staged).value, l, ch, f, ev.refund.value);
      }
    }
  }

  lemma OutsidePaths(symbol: string)
    ensures Outside(FEEDS + [symbol]) && Outside(TICK) && Outside(BOUNDED_MODE)
    ensures FEEDS + [symbol] != [] && TICK != [] && BOUNDED_MODE != []
  {
    assert (FEEDS + [symbol])[0] == "oracles" && TICK[0] == "tick" && BOUNDED_MODE[0] == "failure_mode";
  }

  lemma CreatedRefines(s: Json, l: Ledger, ch: string, agent: string)
    requires hide *; Represents(s, l)
    ensures Agrees(Apply(s, CalCreated(ch, agent)), Step(l, CalCreated(ch, agent)))
    ensures Apply(s, CalCreated(ch, agent)).Ok? ==> SameOutside(s, Apply(s, CalCreated(ch, agent)).value)
  {
    FindRefines(s, l, ch);
    BusyRefines(s, l, agent);
    var f := Flight(agent, CREATED, 0, 0, []);
    SetRoot(Null, Entry(f));
    hide Represents; hide Entry; hide SameOutside; hide IN_FLIGHT; hide GetIn; hide SetIn; hide AgentBusy; hide Busy;
    if ch !in l.flights {
      PutFlight(s, l, ch, [], Entry(f), f);
      assert IN_FLIGHT + [ch] + [] == IN_FLIGHT + [ch];
    }
  }

  lemma ValidatedCases(s: Json, ev: Event, f: Flight)
    requires ev.CalValidated?
    requires FindAt(s, ev.ch, SIGNED) == if f.stage == SIGNED then Ok(Entry(f)) else Err(BAD_STAGE)
    requires AgentOf(Entry(f)) == Some(f.agent)
    ensures Apply(s, ev) ==
      if f.stage != SIGNED then Err(BAD_STAGE)
      else if NeedUint(ev.escrow).Err? then Err(BAD_DELTA)
      else
        match Debit(s, f.agent, ev.escrow.value)
        case Err(c) => Err(c)
        case Ok(s1) => Ok(MoveStage(SetField(s1, ev.ch, "escrowed_ptra", Int(ev.escrow.value)), ev.ch, VALIDATED))
  {
    hide Entry; hide AgentOf; hide MoveStage; hide SetField; hide FindAt; hide Debit;
  }

  lemma ValidatedArm(s: Json, l: Ledger, ev: Event)
    requires hide *; Represents(s, l) && ev.CalValidated?
    ensures Agrees(Apply(s, ev), Step(l, ev))
    ensures Apply(s, ev).Ok? ==> SameOutside(s, Apply(s, ev).value)
  {
    var ch := ev.ch;
    FindRefines(s, l, ch);
    hide Represents; hide Entry; hide IsAt; hide AgentOf; hide SameOutside; hide MoveStage; hide SetField;
    hide FindAt; hide Debit; hide Debited;
    if ch in l.flights {
      hide Apply;
      var f := l.flights[ch];
      EntryFields(f);
      ValidatedCases(s, ev, f);
      if ev.escrow.Some? {
        var e := ev.escrow.value;
        DebitRefines(s, l, f.agent, e);
        DebitedKeepsFlights(l, f.agent, e);
        if Debit(s, f.agent, e).Ok? {
          var s1, l1 := Debit(s, f.agent, e).value, Debited(l, f.agent, e).value;
          ValidatedRefines(s1, l1, ch, e);
          SameOutsideTransitive(s, s1, MoveStage(SetField(s1, ch, "escrowed_ptra", Int(e)), ch, VALIDATED));
        }
      }
    }
  }

  lemma ExecutedArm(s: Json, l: Ledger, ev: Event)
    requires hide *; Represents(s, l) && ev.CalExecuted?
    ensures Agrees(Apply(s, ev), Step(l, ev))
    ensures Apply(s, ev).Ok? ==> SameOutside(s, Apply(s, ev).value)
  {
    hide Represents; hide Entry; hide SameOutside; hide MoveStage; hide SetField; hide FindAt; hide Find;
    hide UINT256_MAX;
    FindRefines(s, l, ev.ch);
    if ev.ch in l.flights && ev.effects.Some? && ev.gas.Some? {
      ExecutedRefines(s, l, ev.ch, ev.effects.value, ev.gas.value);
    }
  }

  lemma MoveArms(s: Json, l: Ledger, ev: Event)
    requires hide *; Represents(s, l) && (ev.CalSigned? || ev.CalSettled?)
    ensures Agrees(Apply(s, ev), Step(l, ev))
    ensures Apply(s, ev).Ok? ==> SameOutside(s, Apply(s, ev).value)
  {
    hide Represents; hide Entry; hide SameOutside; hide MoveStage; hide FindAt; hide Find;
    FindRefines(s, l, ev.ch);
    if ev.ch in l.flights {
      MoveRefines(s, l, ev.ch, if ev.CalSigned? then SIGNED else SETTLED);
    }
  }

  lemma SetRoot(v: Json, x: Json)
    ensures SetIn(v, [], x) == x
  {
  }

  lemma DebitedKeepsFlights(l: Ledger, a: string, n: nat)
    ensures Debited(l, a, n).Ok? ==> Debited(l, a, n).value.flights == l.flights
  {
  }

  lemma TransferRefines(s: Json, l: Ledger, ev: Event)
    requires hide *; Represents(s, l) && (ev.Transferred? || ev.ShadowInit?)
    ensures Agrees(Apply(s, ev), Step(l, ev))
    ensures Apply(s, ev).Ok? ==> SameOutside(s, Apply(s, ev).value)
  {
    match ev {
      case Transferred(from, to, n) =>
        hide Represents; hide SameOutside; hide Debit; hide Debited; hide Credit; hide Paid;
        DebitRefines(s, l, from, n);
        if Debit(s, from, n).Ok? {
          var s1 := Debit(s, from, n).value;
          CreditRefines(s1, Debited(l, from, n).value, to, n);
          if Credit(s1, to, n).Ok? { SameOutsideTransitive(s, s1, Credit(s1, to, n).value); }
        }
      case ShadowInit(a) =>
        ChildAt(s, BALANCES, a);
        assert GetIn(s, BALANCES + [a]).Some? <==> a in l.balances;
        hide Represents; hide SameOutside; hide SetBalance; hide GetIn; hide BALANCES;
        PutBalance(s, l, a, 0);
        SameOutsideReflexive(s);
    }
  }

  lemma FeedRefines(s: Json, l: Ledger, symbol: string, value: Json)
    requires Represents(s, l)
    ensures Represents(SetIn(s, FEEDS + [symbol], value), l)
  {
    OutsidePaths(symbol);
    hide *;
    PutOutside(s, l, FEEDS + [symbol], value);
  }

  lemma TickRefines(s: Json, l: Ledger, next: nat)
    requires Represents(s, l)
    ensures Represents(RecomputeBounded(SetIn(s, TICK, Int(next))), l)
  {
    OutsidePaths("");
    hide Represents; hide Outside; hide GetIn; hide SetIn; hide TICK; hide BOUNDED_MODE; hide GuardTripped;
    PutOutside(s, l, TICK, Int(next));
    var s1 := SetIn(s, TICK, Int(next));
    PutOutside(s1, l, BOUNDED_MODE, Bool(GuardTripped(s1)));
  }

  /** The reducer on the state tree refines the ledger: same verdict and, when it accepts, a state
      that represents the stepped ledger. Only the commit of staged effects and the tick rules
      can refuse more; only finalizing, feeds and ticks reach the outside. */
  lemma Refines(s: Json, l: Ledger, ev: Event)
    requires hide *; Represents(s, l) && Sound(l.flights)
    ensures Apply(s, ev).Ok? ==> Step(l, ev).Ok? && Represents(Apply(s, ev).value, Step(l, ev).value)
    ensures !CommitFails(s, l, ev) && !ev.TickAdvanced? ==> Agrees(Apply(s, ev), Step(l, ev))
    ensures Apply(s, ev).Ok? && !TouchesOutside(ev) ==> SameOutside(s, Apply(s, ev).value)
    ensures Apply(s, ev).Ok? && ev.CalFinalized? ==>
      && ev.ch in l.flights && Commit(s, l.flights[ev.ch].staged).Ok?
      && SameOutside(Commit(s, l.flights[ev.ch].staged).value, Apply(s, ev).value)
  {
    hide Represents; hide SameOutside; hide Commit; hide Sound;
    match ev {
      case CalFinalized(_, _, _) =>
        FinalizedRefines(s, l, ev);
        FindRefines(s, l, ev.ch);
        hide Release; hide Released; hide FindAt;
      case CalFailed(ch, fee, refund, _) => hide Fail; hide Failed; FailRefines(s, l, ch, fee, refund);
      case CalExpired(ch, fee, refund, _) => hide Fail; hide Failed; FailRefines(s, l, ch, fee, refund);
      case Transferred(_, _, _) => hide Apply; hide Step; TransferRefines(s, l, ev);
      case ShadowInit(_) => hide Apply; hide Step; TransferRefines(s, l, ev);
      case FeedSubmitted(symbol, value) => hide SetIn; FeedRefines(s, l, symbol, value);
      case TickAdvanced(next) => hide SetIn; hide RecomputeBounded; TickRefines(s, l, next);
      case Unreadable(_) =>
      case CalCreated(ch, agent) => hide Apply; hide Step; CreatedRefines(s, l, ch, agent);
      case CalValidated(_, _, _) => hide Apply; hide Step; ValidatedArm(s, l, ev);
      case CalExecuted(_, _, _, _) => hide Apply; hide Step; ExecutedArm(s, l, ev);
      case _ => hide Apply; hide Step; MoveArms(s, l, ev);
    }
  }
}
