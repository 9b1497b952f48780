/** The lifecycle table, and the proof that every stage move of the reducer is one it names. */
module Lifecycle {
  import opened Wrappers
  import opened JsonTree
  import opened Events
  import opened Reducer
  import opened Ledgers
  import opened LedgerStep

  /** Where a CAL can be; ANYWHERE is the outside world that a fresh CAL comes from. */
  datatype Place = ANYWHERE | IN(stage: Stage) | FINALIZED | FAILED | EXPIRED

  predicate IsTerminal(p: Place) {
    p.FINALIZED? || p.FAILED? || p.EXPIRED?
  }

  datatype EventType = Created | Signed | Validated | Executed | Settled | Finalized | Failing | Expiring

  function TransitionEventType(from: Place, to: Place): Option<EventType> {
    if to.FAILED? then (if IsTerminal(from) then None else Some(Failing))
    else if to.EXPIRED? then (if IsTerminal(from) then None else Some(Expiring))
    else match (from, to)
      case (ANYWHERE, IN(CREATED)) => Some(Created)
      case (IN(CREATED), IN(SIGNED)) => Some(Signed)
      case (IN(SIGNED), IN(VALIDATED)) => Some(Validated)
      case (IN(VALIDATED), IN(EXECUTED)) => Some(Executed)
      case (IN(EXECUTED), IN(SETTLED)) => Some(Settled)
      case (IN(SETTLED), FINALIZED) => Some(Finalized)
      case _ => None
  }

  function TypeOf(ev: Event): Option<EventType> {
    match ev
    case CalCreated(_, _) => Some(Created)
    case CalSigned(_) => Some(Signed)
    case CalValidated(_, _, _) => Some(Validated)
    case CalExecuted(_, _, _, _) => Some(Executed)
    case CalSettled(_) => Some(Settled)
    case CalFinalized(_, _, _) => Some(Finalized)
    case CalFailed(_, _, _, _) => Some(Failing)
    case CalExpired(_, _, _, _) => Some(Expiring)
    case _ => None
  }

  function PlaceOf(fl: map<string, Flight>, ch: string): Place {
    if ch in fl then IN(fl[ch].stage) else ANYWHERE
  }

  /** Where the event leaves its own CAL: a CAL that leaves the table is at a terminal stage. */
  function Landing(l: Ledger, ev: Event): Place
    requires Step(l, ev).Ok? && TypeOf(ev).Some?
  {
    if ev.CalFinalized? then FINALIZED
    else if ev.CalFailed? then FAILED
    else if ev.CalExpired? then EXPIRED
    else PlaceOf(Step(l, ev).value.flights, ev.ch)
  }

  /** Each accepted lifecycle event moves exactly its own CAL, along an edge of the table that
      carries this event type, and closes it exactly when the edge ends in a terminal stage. */
  lemma MovesFollowTable(l: Ledger, ev: Event)
    requires Step(l, ev).Ok? && TypeOf(ev).Some?
    ensures TransitionEventType(PlaceOf(l.flights, ev.ch), Landing(l, ev)) == TypeOf(ev)
    ensures IsTerminal(Landing(l, ev)) <==> ev.ch !in Step(l, ev).value.flights
    ensures forall c :: c != ev.ch ==>
      (c in l.flights <==> c in Step(l, ev).value.flights) &&
      (c in l.flights ==> Step(l, ev).value.flights[c] == l.flights[c])
  {
    hide Charged; hide Released; hide Debited;
    match ev {
      case CalValidated(ch, e, _) => DebitedKeepsFlights(l, l.flights[ch].agent, e.value);
      case CalFinalized(_, _, _) => FlightsKept(l, ev);
      case CalFailed(_, _, _, _) => FlightsKept(l, ev);
      case CalExpired(_, _, _, _) => FlightsKept(l, ev);
      case _ =>
    }
  }
}
