/** Money is neither made nor lost: balances, fee window and escrows of in-flight CALs. */
module Conservation {
  import opened Wrappers
  import opened JsonTree
  import opened Events
  import opened Deltas
  import opened Reducer
  import opened Ledgers
  import opened LedgerStep
  import opened Sums

  function Escrows(fl: map<string, Flight>): map<string, nat> {
    map ch | ch in fl :: fl[ch].escrow
  }

  ghost function Supply(l: Ledger): nat {
    Sum(l.balances) + l.fees + Sum(Escrows(l.flights))
  }

  lemma BalancePut(l: Ledger, a: string, n: nat)
    ensures Supply(l.(balances := l.balances[a := n])) == Supply(l) - At(l.balances, a) + n
    ensures At(l.balances, a) <= Sum(l.balances)
  {
    SumPut(l.balances, a, n);
    if a in l.balances {
      SumBounds(l.balances, a);
    }
  }

  lemma FlightPut(l: Ledger, ch: string, f: Flight)
    ensures Supply(l.(flights := l.flights[ch := f]))
      == Supply(l) - (if ch in l.flights then l.flights[ch].escrow else 0) + f.escrow
  {
    SumPut(Escrows(l.flights), ch, f.escrow);
    assert Escrows(l.flights[ch := f]) == Escrows(l.flights)[ch := f.escrow];
  }

  lemma FlightDrop(l: Ledger, ch: string, agent: string)
    requires ch in l.flights
    ensures Supply(Closed(l, ch, agent)) == Supply(l) - l.flights[ch].escrow
    ensures l.flights[ch].escrow <= Sum(Escrows(l.flights))
  {
    SumDrop(Escrows(l.flights), ch);
    assert Escrows(l.flights - {ch}) == Escrows(l.flights) - {ch};
  }

  lemma ReleaseConserves(l: Ledger, ch: string, refund: nat)
    requires ch in l.flights
    ensures var r := Released(l, ch, l.flights[ch], refund);
      && (r.Ok? ==> Supply(r.value) == Supply(l))
      && (Supply(l) <= UINT256_MAX && refund <= l.flights[ch].escrow ==> r.Ok?)
  {
    hide Sum; hide Escrows;
    var f := l.flights[ch];
    BalancePut(l, f.agent, At(l.balances, f.agent) + refund);
    FlightDrop(l, ch, f.agent);
    var l1 := if refund == 0 then l else l.(balances := l.balances[f.agent := At(l.balances, f.agent) + refund]);
    if refund <= f.escrow {
      var l2 := l1.(fees := l1.fees + (f.escrow - refund));
      FlightDrop(l2, ch, f.agent);
    }
  }

  lemma ChargeConserves(l: Ledger, ch: string, charge: nat)
    requires ch in l.flights && l.flights[ch].escrow == 0
    ensures var r := Charged(l, ch, l.flights[ch].agent, charge);
      && (r.Ok? ==> Supply(r.value) == Supply(l))
      && (Supply(l) <= UINT256_MAX && charge <= At(l.balances, l.flights[ch].agent) ==> r.Ok?)
      && (Supply(l) <= UINT256_MAX ==> r != Err(OVERFLOW))
  {
    var a := l.flights[ch].agent;
    if charge <= At(l.balances, a) {
      BalancePut(l, a, At(l.balances, a) - charge);
      hide Sum; hide Escrows;
      var l1 := if charge == 0 then l else l.(balances := l.balances[a := At(l.balances, a) - charge]);
      FlightDrop(l1.(fees := l1.fees + charge), ch, a);
    }
  }

  lemma TransferConserves(l: Ledger, from: string, to: string, n: nat)
    ensures var r := Step(l, Transferred(from, to, n));
      && (r.Ok? ==> Supply(r.value) == Supply(l))
      && (Supply(l) <= UINT256_MAX ==> r != Err(OVERFLOW))
  {
    hide Sum; hide Escrows;
    if n <= At(l.balances, from) {
      BalancePut(l, from, At(l.balances, from) - n);
      var l1 := l.(balances := l.balances[from := At(l.balances, from) - n]);
      BalancePut(l1, to, At(l1.balances, to) + n);
    }
  }

  /** A release asks back more than the CAL ever escrowed. */
  predicate OverRefund(l: Ledger, ev: Event) {
    && Closes(ev)
    && ev.ch in l.flights
    && !(l.flights[ev.ch].stage in {CREATED, SIGNED})
    && ev.refund.Some?
    && ev.refund.value > l.flights[ev.ch].escrow
  }

  /** Every accepted event keeps the supply. With the supply in range no credit overflows, unless
      the event asks back more than was escrowed. */
  lemma StepConserves(l: Ledger, ev: Event)
    requires hide *; Sound(l.flights)
    ensures Step(l, ev).Ok? ==> Supply(Step(l, ev).value) == Supply(l)
    ensures Supply(l) <= UINT256_MAX && Step(l, ev) == Err(OVERFLOW) ==> OverRefund(l, ev)
  {
    hide Sum; hide Escrows;
    match ev {
      case CalCreated(ch, agent) => FlightPut(l, ch, Flight(agent, CREATED, 0, 0, []));
      case CalSigned(ch) =>
        if ch in l.flights { FlightPut(l, ch, l.flights[ch].(stage := SIGNED)); }
      case CalValidated(ch, e, _) =>
        if Step(l, ev).Ok? { ValidatedConserves(l, ch, e.value); }
      case CalExecuted(ch, ds, g, _) =>
        if Step(l, ev).Ok? { FlightPut(l, ch, l.flights[ch].(stage := EXECUTED, staged := ds.value, gas := g.value)); }
      case CalSettled(ch) =>
        if ch in l.flights { FlightPut(l, ch, l.flights[ch].(stage := SETTLED)); }
      case Transferred(from, to, n) => TransferConserves(l, from, to, n);
      case ShadowInit(a) => BalancePut(l, a, 0);
      case FeedSubmitted(_, _) =>
      case TickAdvanced(_) =>
      case Unreadable(_) =>
      case _ => hide Step; hide Supply; ClosingConserves(l, ev);
    }
  }

  lemma ValidatedConserves(l: Ledger, ch: string, e: nat)
    requires Sound(l.flights) && ch in l.flights && l.flights[ch].stage == SIGNED
    requires e <= At(l.balances, l.flights[ch].agent)
    ensures var f := l.flights[ch];
      var l1 := l.(balances := l.balances[f.agent := At(l.balances, f.agent) - e]);
      Supply(l1.(flights := l.flights[ch := f.(stage := VALIDATED, escrow := e)])) == Supply(l)
  {
    var f := l.flights[ch];
    BalancePut(l, f.agent, At(l.balances, f.agent) - e);
    var l1 := l.(balances := l.balances[f.agent := At(l.balances, f.agent) - e]);
    FlightPut(l1, ch, f.(stage := VALIDATED, escrow := e));
  }

  lemma ClosingConserves(l: Ledger, ev: Event)
    requires hide *; Sound(l.flights) && Closes(ev)
    ensures Step(l, ev).Ok? ==> Supply(Step(l, ev).value) == Supply(l)
    ensures Supply(l) <= UINT256_MAX && Step(l, ev) == Err(OVERFLOW) ==> OverRefund(l, ev)
  {
    hide Supply; hide Released; hide Charged;
    if ev.ch in l.flights {
      assert SoundFlight(l.flights[ev.ch]);
      if ev.refund.Some? { ReleaseConserves(l, ev.ch, ev.refund.value); }
      if !ev.CalFinalized? && ev.feeDebited.Some? && l.flights[ev.ch].escrow == 0 {
        ChargeConserves(l, ev.ch, ev.feeDebited.value);
      }
    }
  }

  lemma OverRefundRejected(s: Json, l: Ledger, ev: Event)
    requires Represents(s, l) && Sound(l.flights) && OverRefund(l, ev)
    ensures Apply(s, ev).Err?
  {
    hide Represents; hide Sound; hide Entry; hide AgentOf; hide EscrowOf; hide IsAt; hide Find; hide Commit;
    hide Credit; hide AddFees; hide Close;
    FindRefines(s, l, ev.ch);
    EntryFields(l.flights[ev.ch]);
    SoundEntry(l, ev.ch);
  }
}
