/** Why a state never comes back along the log of a node: every event it logs moves a clock made of
    the nonces, the stages of the CALs in flight and the tick, in this order. */
module LogClock {
  import opened Wrappers
  import opened JsonTree
  import opened Events
  import opened Reducer
  import opened Ports
  import opened Ledgers
  import opened LedgerStep
  import opened Runs
  import opened NodeLog
  import opened Sums
  import Lifecycle
  import Merkle

  datatype Clock = Clock(nonces: nat, ranks: nat, tick: int)

  predicate Later(a: Clock, b: Clock) {
    || a.nonces < b.nonces
    || (a.nonces == b.nonces && a.ranks < b.ranks)
    || (a.nonces == b.nonces && a.ranks == b.ranks && a.tick < b.tick)
  }

  function Rank(st: Stage): nat {
    match st
    case CREATED => 1
    case SIGNED => 2
    case VALIDATED => 3
    case EXECUTED => 4
    case SETTLED => 5
  }

  function Ranks(fl: map<string, Flight>): map<string, nat> {
    map ch | ch in fl :: Rank(fl[ch].stage)
  }

  function TickOf(s: Json): int {
    match GetIn(s, TICK) case Some(Int(n)) => n case _ => -1
  }

  ghost function ClockOf(s: Json, l: Ledger): Clock {
    Clock(Sum(l.nonces), Sum(Ranks(l.flights)), TickOf(s))
  }

  // --- each event moves the clock ---

  lemma ClosingNonces(l: Ledger, ev: Event)
    requires Step(l, ev).Ok? && Closes(ev)
    ensures ev.ch in l.flights
    ensures var a := l.flights[ev.ch].agent; Step(l, ev).value.nonces == l.nonces[a := At(l.nonces, a) + 1]
  {
  }

  lemma ClosingLater(s: Json, l: Ledger, ev: Event, t: Json)
    requires hide *; Step(l, ev).Ok? && Closes(ev)
    ensures Later(ClockOf(s, l), ClockOf(t, Step(l, ev).value))
  {
    ClosingNonces(l, ev);
    hide Step; hide Ranks; hide TickOf;
    var a := l.flights[ev.ch].agent;
    SumPut(l.nonces, a, At(l.nonces, a) + 1);
  }

  /** An event that keeps its CAL in flight moves it to a later stage and leaves the nonces alone. */
  lemma StageUp(l: Ledger, ev: Event)
    requires Step(l, ev).Ok? && Lifecycle.TypeOf(ev).Some? && !Closes(ev)
    ensures var m := Step(l, ev).value;
      && m.nonces == l.nonces && ev.ch in m.flights && m.flights == l.flights[ev.ch := m.flights[ev.ch]]
      && (if ev.ch in l.flights then Rank(l.flights[ev.ch].stage) else 0) < Rank(m.flights[ev.ch].stage)
  {
    hide Busy;
  }

  lemma RanksPut(fl: map<string, Flight>, ch: string, f: Flight)
    ensures Sum(Ranks(fl[ch := f])) == Sum(Ranks(fl)) - (if ch in fl then Rank(fl[ch].stage) else 0) + Rank(f.stage)
  {
    hide Rank;
    SumPut(Ranks(fl), ch, Rank(f.stage));
    assert Ranks(fl[ch := f]) == Ranks(fl)[ch := Rank(f.stage)];
  }

  lemma StageLater(s: Json, l: Ledger, ev: Event, t: Json)
    requires hide *; Step(l, ev).Ok? && Lifecycle.TypeOf(ev).Some? && !Closes(ev)
    ensures Later(ClockOf(s, l), ClockOf(t, Step(l, ev).value))
  {
    StageUp(l, ev);
    hide Step; hide Ranks; hide Rank; hide TickOf; hide Lifecycle.TypeOf; hide Closes;
    RanksPut(l.flights, ev.ch, Step(l, ev).value.flights[ev.ch]);
  }

  lemma TickRaised(s: Json, next: nat)
    requires hide *; Apply(s, TickAdvanced(next)).Ok?
    ensures TickOf(s) < TickOf(Apply(s, TickAdvanced(next)).value)
  {
    var s1 := SetIn(s, TICK, Int(next));
    GetSet(s, TICK, Int(next));
    TickApart();
    GetSetDisjoint(s1, BOUNDED_MODE, TICK, Bool(GuardTripped(s1)));
    hide GuardTripped; hide SetIn; hide GetIn; hide TICK; hide BOUNDED_MODE;
  }

  lemma TickApart()
    ensures Disjoint(BOUNDED_MODE, TICK)
  {
    assert BOUNDED_MODE[0] == "failure_mode" && TICK[0] == "tick";
  }

  lemma TickStays(l: Ledger, next: nat)
    ensures Step(l, TickAdvanced(next)) == Ok(l)
  {
  }

  lemma TickLater(s: Json, l: Ledger, next: nat, t: Json)
    requires TickOf(s) < TickOf(t)
    ensures Later(ClockOf(s, l), ClockOf(t, l))
  {
    hide TickOf; hide Ranks;
  }

  /** Every event that a node logs moves the clock on. */
  lemma EventLater(s: Json, l: Ledger, ev: Event)
    requires hide *; Represents(s, l) && Sound(l.flights) && Apply(s, ev).Ok? && (Kernel(ev) || ev.TickAdvanced?)
    ensures Step(l, ev).Ok? && Later(ClockOf(s, l), ClockOf(Apply(s, ev).value, Step(l, ev).value))
  {
    hide *;
    Refines(s, l, ev);
    if ev.TickAdvanced? {
      TickStays(l, ev.newTick);
      TickRaised(s, ev.newTick);
      TickLater(s, l, ev.newTick, Apply(s, ev).value);
    } else {
      KernelKind(ev);
      if Closes(ev) { ClosingLater(s, l, ev, Apply(s, ev).value); }
      else { StageLater(s, l, ev, Apply(s, ev).value); }
    }
  }

  lemma KernelKind(ev: Event)
    requires Kernel(ev)
    ensures Lifecycle.TypeOf(ev).Some?
  {
  }

  lemma LaterTransitive(a: Clock, b: Clock, c: Clock)
    requires Later(a, b) && Later(b, c)
    ensures Later(a, c)
  {
  }

  /** The clock after a whole log is later than after any proper prefix of it. */
  lemma {:induction false} LogLater(s: Json, l: Ledger, log: seq<Event>, i: nat)
    requires hide *;
      Represents(s, l) && Sound(l.flights) && NodeEvents(log) && Materialize(Rust, s, log).Ok? && i < |log|
    ensures Materialize(Rust, s, log[..i]).Ok?
    ensures Later(ClockOf(Materialize(Rust, s, log[..i]).value, LedgerAfter(l, log[..i])),
      ClockOf(Materialize(Rust, s, log).value, LedgerAfter(l, log)))
    decreases |log|
  {
    hide Represents; hide Sound; hide Apply; hide Step; hide ClockOf; hide Later; hide Kernel; hide SafeEvent;
    var n := |log| - 1;
    SafeAll(log);
    RunKeeps(s, l, log[..n]);
    EventLater(Materialize(Rust, s, log[..n]).value, LedgerAfter(l, log[..n]), log[n]);
    if i < n {
      assert log[..n][..i] == log[..i];
      LogLater(s, l, log[..n], i);
      LaterTransitive(ClockOf(Materialize(Rust, s, log[..i]).value, LedgerAfter(l, log[..i])),
        ClockOf(Materialize(Rust, s, log[..n]).value, LedgerAfter(l, log[..n])),
        ClockOf(Materialize(Rust, s, log).value, LedgerAfter(l, log)));
    }
  }

  lemma SafeAll(log: seq<Event>)
    requires NodeEvents(log)
    ensures SafeLog(log) && SafeLog(log[..|log| - (if log == [] then 0 else 1)])
  {
    NodeEventsSafe(log);
    hide SafeEvent;
  }

  // --- the clock is read off the namespaces ---

  lemma ContentRead(s: Json, name: string, rest: Path)
    requires rest != []
    ensures GetIn(s, [name] + rest) == GetIn(Merkle.Content(s, name), rest)
  {
    GetAppend(s, [name], rest);
  }

  lemma ContentSame(s: Json, t: Json, name: string, rest: Path)
    requires Merkle.Content(s, name) == Merkle.Content(t, name) && rest != []
    ensures GetIn(s, [name] + rest) == GetIn(t, [name] + rest)
  {
    hide GetIn; hide Merkle.Content;
    ContentRead(s, name, rest);
    ContentRead(t, name, rest);
  }

  lemma SameCal(s: Json, t: Json)
    requires Merkle.SameContents(s, t)
    ensures ObjAt(s, NONCES) == ObjAt(t, NONCES) && ObjAt(s, IN_FLIGHT) == ObjAt(t, IN_FLIGHT) && TickOf(s) == TickOf(t)
  {
    hide Merkle.Content; hide GetIn;
    assert Merkle.NAMESPACES[0] == "cal" && Merkle.NAMESPACES[6] == "tick";
    ContentSame(s, t, "cal", ["nonces"]);
    ContentSame(s, t, "cal", ["in_flight"]);
    ContentSame(s, t, "tick", ["current"]);
    assert ["cal"] + ["nonces"] == NONCES && ["cal"] + ["in_flight"] == IN_FLIGHT && ["tick"] + ["current"] == TICK;
  }

  lemma EntrySameStage(f: Flight, g: Flight)
    requires Entry(f) == Entry(g)
    ensures f.stage == g.stage
  {
    EntryFields(f);
    EntryFields(g);
    hide Entry; hide IsAt;
    assert IsAt(Entry(f), g.stage);
  }

  /** States with the same contents show the same clock. */
  lemma ClockSame(s: Json, l: Ledger, t: Json, m: Ledger)
    requires Represents(s, l) && Represents(t, m) && Merkle.SameContents(s, t)
    ensures ClockOf(s, l) == ClockOf(t, m)
  {
    hide *;
    SameCal(s, t);
    CalRead(s, l);
    CalRead(t, m);
    SameRanks(l.flights, m.flights, ObjAt(s, IN_FLIGHT));
    ClockIs(s, l);
    ClockIs(t, m);
  }

  lemma ClockIs(s: Json, l: Ledger)
    ensures ClockOf(s, l) == Clock(Sum(l.nonces), Sum(Ranks(l.flights)), TickOf(s))
  {
    hide Ranks; hide TickOf;
  }

  /** The map holds the entries of these CALs. */
  ghost predicate Shows(fl: map<string, Flight>, all: map<string, Json>) {
    fl.Keys == all.Keys && forall ch :: ch in fl ==> all[ch] == Entry(fl[ch])
  }

  lemma CalRead(s: Json, l: Ledger)
    requires Represents(s, l)
    ensures l.nonces == Counters(ObjAt(s, NONCES)) && Shows(l.flights, ObjAt(s, IN_FLIGHT))
  {
    hide ObjAt; hide Entry; hide NONCES; hide IN_FLIGHT; hide BALANCES; hide Fees; hide Counters; hide Amounts;
  }

  lemma SameRanks(fl: map<string, Flight>, gl: map<string, Flight>, all: map<string, Json>)
    requires Shows(fl, all) && Shows(gl, all)
    ensures Ranks(fl) == Ranks(gl)
  {
    hide Entry; hide Rank;
    assert forall ch :: ch in fl <==> ch in all;
    assert forall ch :: ch in gl <==> ch in all;
    forall ch | ch in fl ensures ch in gl && fl[ch].stage == gl[ch].stage {
      EntrySameStage(fl[ch], gl[ch]);
    }
  }

  lemma LaterDiffers(a: Clock)
    ensures !Later(a, a)
  {
  }

  /** Along a log of a node no state comes back: two different prefixes lead to states that differ in
      some namespace. */
  lemma StatesDiffer(s: Json, l: Ledger, log: seq<Event>, i: nat, j: nat)
    requires hide *;
      Represents(s, l) && Sound(l.flights) && NodeEvents(log) && Materialize(Rust, s, log).Ok? && i < j <= |log|
    ensures Materialize(Rust, s, log[..i]).Ok? && Materialize(Rust, s, log[..j]).Ok?
    ensures !Merkle.SameContents(Materialize(Rust, s, log[..i]).value, Materialize(Rust, s, log[..j]).value)
  {
    hide Represents; hide Sound; hide Apply; hide ClockOf; hide Later; hide Kernel; hide SafeEvent;
    hide Merkle.SameContents;
    hide LedgerAfter;
    if Materialize(Rust, s, log[..j]).Err? { RejectedForGood(Rust, s, log, j); }
    SafeAll(log);
    assert log[..j][..i] == log[..i];
    LogLater(s, l, log[..j], i);
    RunKeeps(s, l, log[..j]);
    RunKeeps(s, l, log[..i]);
    var a, b := Materialize(Rust, s, log[..i]).value, Materialize(Rust, s, log[..j]).value;
    if Merkle.SameContents(a, b) {
      ClockSame(a, LedgerAfter(l, log[..i]), b, LedgerAfter(l, log[..j]));
      LaterDiffers(ClockOf(b, LedgerAfter(l, log[..j])));
    }
  }
}
