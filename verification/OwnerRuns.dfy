/** Owner records stay well formed over runs whose effects reach owners and threshold only by set
    or delete of those two fields; an add on threshold goes round the check. */
module OwnerRuns {
  import opened Wrappers
  import opened JsonTree
  import opened Events
  import opened Deltas
  import opened Reducer
  import opened Ports
  import opened Ledgers
  import opened LedgerStep
  import opened Runs
  import Owners

  function RecordPath(id: string): Path {
    ["registry", "agents", id]
  }

  predicate IsBound(f: string) {
    f == "owners" || f == "threshold"
  }

  function Field(s: Json, id: string, f: string): Option<Json> {
    GetIn(s, RecordPath(id) + [f])
  }

  predicate RecordOk(s: Json, id: string) {
    Field(s, id, "owners").Some? && Field(s, id, "threshold").Some? ==>
      Owners.WellFormed(Field(s, id, "owners"), Field(s, id, "threshold"))
  }

  /** Every record that holds both fields is within the bound. */
  ghost predicate RecordsOk(s: Json) {
    forall id: string :: RecordOk(s, id)
  }

  /** The path is one owner field of one record. */
  predicate IsOwnerPath(p: Path) {
    |p| == 4 && p == RecordPath(p[2]) + [p[3]] && IsBound(p[3])
  }

  ghost predicate OffOwners(p: Path) {
    forall id: string, f: string :: IsBound(f) ==> Disjoint(p, RecordPath(id) + [f])
  }

  /** The effect sets or deletes one owner field, or stays away from all of them. */
  ghost predicate OwnerSafe(d: Json) {
    Decode(d).Some? ==>
      || (IsOwnerPath(Decode(d).value.full) && (Decode(d).value.op.Set? || Decode(d).value.op.Delete?))
      || OffOwners(Decode(d).value.full)
  }

  ghost predicate AllOwnerSafe(ds: seq<Json>) {
    forall i :: 0 <= i < |ds| ==> OwnerSafe(ds[i])
  }

  lemma SameFields(s: Json, t: Json)
    requires RecordsOk(s)
    requires forall id, f :: IsBound(f) ==> Field(t, id, f) == Field(s, id, f)
    ensures RecordsOk(t)
  {
    hide Field; hide Owners.WellFormed;
    forall id ensures RecordOk(t, id) { assert RecordOk(s, id); }
  }

  lemma OffOwnersKeeps(s: Json, p: Path, x: Json)
    requires RecordsOk(s) && OffOwners(p)
    ensures RecordsOk(SetIn(s, p, x))
    ensures p != [] ==> RecordsOk(DeleteIn(s, p))
  {
    hide Owners.WellFormed; hide RecordPath; hide SetIn; hide DeleteIn; hide Disjoint; hide RecordsOk; hide IsBound;
    hide GetIn;
    forall id, f | IsBound(f)
      ensures Field(SetIn(s, p, x), id, f) == Field(s, id, f)
      ensures p != [] ==> Field(DeleteIn(s, p), id, f) == Field(s, id, f)
    {
      GetSetDisjoint(s, p, RecordPath(id) + [f], x);
      if p != [] { GetDeleteDisjoint(s, p, RecordPath(id) + [f]); }
    }
    SameFields(s, SetIn(s, p, x));
    if p != [] { SameFields(s, DeleteIn(s, p)); }
  }

  lemma OtherRecord(id: string, other: string, f: string, g: string)
    requires id != other || f != g
    ensures Disjoint(RecordPath(id) + [f], RecordPath(other) + [g])
  {
    var p, q := RecordPath(id) + [f], RecordPath(other) + [g];
    assert |p| == |q| == 4 && p[2] == id && q[2] == other && p[3] == f && q[3] == g;
  }

  lemma RecordRead(s: Json, id: string, f: string)
    ensures Field(s, id, f) == match GetIn(s, RecordPath(id)) case None => None case Some(rec) => rec.Get(f)
  {
    hide RecordPath;
    GetAppend(s, RecordPath(id), [f]);
    if GetIn(s, RecordPath(id)).Some? {
      var rec := GetIn(s, RecordPath(id)).value;
      assert GetIn(rec, [f]) == rec.Get(f) by { assert [f][1..] == []; }
    }
  }

  lemma SetOwnerKeeps(s: Json, id: string, f: string, x: Json)
    requires RecordsOk(s) && IsBound(f)
    ensures var full := RecordPath(id) + [f];
      EnforceOwnerRecord(SetIn(s, full, x), full).Ok? ==> RecordsOk(SetIn(s, full, x))
  {
    var full := RecordPath(id) + [f];
    var t := SetIn(s, full, x);
    assert full[..3] == RecordPath(id) && full[0] == "registry" && full[1] == "agents" && full[3] == f;
    if EnforceOwnerRecord(t, full).Ok? {
      RecordRead(t, id, "owners");
      RecordRead(t, id, "threshold");
      hide Owners.WellFormed; hide RecordPath; hide SetIn; hide IsBound; hide GetIn;
      forall other ensures RecordOk(t, other) {
        if other != id {
          assert RecordOk(s, other);
          OtherRecord(id, other, f, "owners");
          OtherRecord(id, other, f, "threshold");
          GetSetDisjoint(s, full, RecordPath(other) + ["owners"], x);
          GetSetDisjoint(s, full, RecordPath(other) + ["threshold"], x);
        }
      }
    }
  }

  lemma DeleteOwnerKeeps(s: Json, id: string, f: string)
    requires RecordsOk(s) && IsBound(f)
    ensures RecordsOk(DeleteIn(s, RecordPath(id) + [f]))
  {
    var full := RecordPath(id) + [f];
    var t := DeleteIn(s, full);
    GetDeleted(s, full, []);
    assert full + [] == full;
    hide Owners.WellFormed; hide RecordPath; hide DeleteIn; hide GetIn;
    forall other ensures RecordOk(t, other) {
      if other != id {
        assert RecordOk(s, other);
        OtherRecord(id, other, f, "owners");
        OtherRecord(id, other, f, "threshold");
        GetDeleteDisjoint(s, full, RecordPath(other) + ["owners"]);
        GetDeleteDisjoint(s, full, RecordPath(other) + ["threshold"]);
      }
    }
  }

  /** What an accepted effect writes. */
  lemma DeltaWrites(s: Json, d: Json) returns (x: Json)
    requires ApplyDelta(s, d).Ok?
    ensures Decode(d).Some?
    ensures var full, r := Decode(d).value.full, ApplyDelta(s, d).value;
      match Decode(d).value.op
      case Set => r == SetIn(s, full, x) && EnforceOwnerRecord(SetIn(s, full, x), full).Ok?
      case Delete => r == DeleteIn(s, full)
      case _ => r == SetIn(s, full, x)
  {
    hide Decode; hide SetIn; hide DeleteIn; hide GetIn; hide Operands; hide EnforceOwnerRecord;
    var delta := Decode(d).value;
    x := delta.value.GetOr(Null);
    match delta.op {
      case Set => EnforceReturns(SetIn(s, delta.full, x), delta.full);
      case Delete =>
      case _ =>
        var (cur, n) := Operands(s, delta.full, delta.value).value;
        x := Int(if delta.op.Add? then cur + n else cur - n);
    }
  }

  lemma DeltaKeepsRecords(s: Json, d: Json)
    requires RecordsOk(s) && OwnerSafe(d) && ApplyDelta(s, d).Ok?
    ensures RecordsOk(ApplyDelta(s, d).value)
  {
    hide Decode; hide RecordsOk; hide SetIn; hide DeleteIn; hide GetIn; hide OffOwners; hide IsBound; hide ApplyDelta;
    hide EnforceOwnerRecord; hide RecordPath;
    var x := DeltaWrites(s, d);
    var full := Decode(d).value.full;
    if OffOwners(full) {
      OffOwnersKeeps(s, full, x);
    } else {
      SetOwnerKeeps(s, full[2], full[3], x);
      DeleteOwnerKeeps(s, full[2], full[3]);
    }
  }

  lemma {:induction false} CommitKeepsRecords(s: Json, ds: seq<Json>)
    requires RecordsOk(s) && AllOwnerSafe(ds) && Commit(s, ds).Ok?
    ensures RecordsOk(Commit(s, ds).value)
    decreases |ds|
  {
    hide RecordsOk; hide OwnerSafe; hide ApplyDelta;
    if ds != [] {
      DeltaKeepsRecords(s, ds[0]);
      CommitKeepsRecords(ApplyDelta(s, ds[0]).value, ds[1..]);
    }
  }

  // --- whole runs ---

  ghost predicate StagedOwnerSafe(fl: map<string, Flight>) {
    forall ch :: ch in fl ==> AllOwnerSafe(fl[ch].staged)
  }

  ghost predicate OwnerSafeEvent(ev: Event) {
    ev.CalExecuted? && ev.effects.Some? ==> AllOwnerSafe(ev.effects.value)
  }

  ghost predicate OwnerSafeLog(log: seq<Event>) {
    forall i :: 0 <= i < |log| ==> OwnerSafeEvent(log[i])
  }

  lemma StagedKept(l: Ledger, ev: Event)
    requires hide *; StagedOwnerSafe(l.flights) && OwnerSafeEvent(ev) && Step(l, ev).Ok?
    ensures StagedOwnerSafe(Step(l, ev).value.flights)
  {
    hide OwnerSafe; hide Debited; hide Collected; hide Paid;
    match ev {
      case CalCreated(_, _) =>
      case CalSigned(_) =>
      case CalValidated(_, _, _) =>
      case CalExecuted(_, _, _, _) =>
      case CalSettled(_) =>
      case _ => FlightsKept(l, ev);
    }
  }

  lemma SameOutsideRecords(s: Json, t: Json)
    requires SameOutside(s, t) && RecordsOk(s)
    ensures RecordsOk(t)
  {
    hide Owners.WellFormed; hide SameOutside; hide GetIn; hide RecordsOk; hide Outside;
    forall id, f | IsBound(f) ensures Field(t, id, f) == Field(s, id, f) {
      OwnerOutside(id, f);
      SameOutsideGet(s, t, RecordPath(id) + [f]);
    }
    SameFields(s, t);
  }

  lemma OwnerOutside(id: string, f: string)
    ensures Outside(RecordPath(id) + [f])
  {
    assert (RecordPath(id) + [f])[0] == "registry";
  }

  lemma FeedTickOff(symbol: string)
    ensures OffOwners(FEEDS + [symbol]) && OffOwners(TICK) && OffOwners(BOUNDED_MODE)
  {
    assert (FEEDS + [symbol])[0] == "oracles" && TICK[0] == "tick" && BOUNDED_MODE[0] == "failure_mode";
    forall id: string, f: string
      ensures Disjoint(FEEDS + [symbol], RecordPath(id) + [f]) && Disjoint(TICK, RecordPath(id) + [f])
      ensures Disjoint(BOUNDED_MODE, RecordPath(id) + [f])
    {
      assert (RecordPath(id) + [f])[0] == "registry";
    }
  }

  lemma PerformKeepsRecords(s: Json, op: Runs.Op)
    requires hide *; RecordsOk(s) && (op.Effects? ==> AllOwnerSafe(op.staged)) && Perform(s, op).Ok?
    ensures RecordsOk(Perform(s, op).value)
  {
    hide RecordsOk; hide Commit; hide AllOwnerSafe; hide SetIn; hide GuardTripped; hide FEEDS; hide TICK;
    hide BOUNDED_MODE; hide OffOwners;
    match op {
      case Effects(staged) => CommitKeepsRecords(s, staged);
      case Feed(symbol, value) => FeedTickOff(symbol); OffOwnersKeeps(s, FEEDS + [symbol], value);
      case Tick(next) =>
        FeedTickOff("");
        OffOwnersKeeps(s, TICK, Int(next));
        var s1 := SetIn(s, TICK, Int(next));
        OffOwnersKeeps(s1, BOUNDED_MODE, Bool(GuardTripped(s1)));
    }
  }

  lemma EventKeepsRecords(s: Json, l: Ledger, ev: Event)
    requires hide *; Represents(s, l) && Sound(l.flights) && StagedOwnerSafe(l.flights) && RecordsOk(s)
    requires Apply(s, ev).Ok?
    ensures RecordsOk(Apply(s, ev).value)
  {
    hide Represents; hide Sound; hide RecordsOk; hide Apply; hide SameOutside; hide Perform; hide SafeOp;
    hide OwnerSafe;
    EventOutside(s, l, ev);
    var ops := OpsOf(l, ev);
    if ops == [] {
      PerformNone(s);
    } else {
      PerformOne(s, ops[0]);
      assert ops == [ops[0]];
      PerformKeepsRecords(s, ops[0]);
    }
    SameOutsideRecords(PerformAll(s, ops).value, Apply(s, ev).value);
  }

  /** Over every accepted run whose effects touch owners and threshold only by set or delete, every
      record that holds both fields stays within the bound. */
  lemma {:induction false} RecordsStay(s: Json, l: Ledger, log: seq<Event>)
    requires hide *; Represents(s, l) && Sound(l.flights) && StagedOwnerSafe(l.flights) && RecordsOk(s)
    requires SafeLog(log) && OwnerSafeLog(log) && Materialize(Rust, s, log).Ok?
    ensures RecordsOk(Materialize(Rust, s, log).value) && StagedOwnerSafe(LedgerAfter(l, log).flights)
    decreases |log|
  {
    hide Represents; hide Sound; hide RecordsOk; hide Apply; hide Step; hide StagedOwnerSafe; hide SafeEvent;
    hide OwnerSafeEvent;
    if log != [] {
      var n := |log| - 1;
      RecordsStay(s, l, log[..n]);
      RunKeeps(s, l, log[..n]);
      RunKeeps(s, l, log);
      var t, m := Materialize(Rust, s, log[..n]).value, LedgerAfter(l, log[..n]);
      EventKeepsRecords(t, m, log[n]);
      StagedKept(m, log[n]);
    }
  }

  /** Why add has to be excluded: it raises the threshold past the owners unchecked. */
  lemma AddGoesRound(s: Json, id: string, owners: seq<Json>)
    requires Field(s, id, "owners") == Some(Arr(owners)) && Field(s, id, "threshold") == Some(Int(|owners|))
    requires |owners| < UINT256_MAX
    ensures var d := Obj(map["ns" := Str("registry"), "op" := Str("add"),
        "path" := Arr([Str("agents"), Str(id), Str("threshold")]), "value" := Int(1)]);
      && ApplyDelta(s, d).Ok? && Field(ApplyDelta(s, d).value, id, "threshold") == Some(Int(|owners| + 1))
      && !RecordOk(ApplyDelta(s, d).value, id)
  {
    hide Decode; hide SetIn; hide GetIn; hide RecordPath; hide Disjoint; hide EnforceOwnerRecord;
    var d := Obj(map["ns" := Str("registry"), "op" := Str("add"),
      "path" := Arr([Str("agents"), Str(id), Str("threshold")]), "value" := Int(1)]);
    AddDecoded(d, id);
    var full := RecordPath(id) + ["threshold"];
    OtherRecord(id, id, "threshold", "owners");
    GetSet(s, full, Int(|owners| + 1));
    GetSetDisjoint(s, full, RecordPath(id) + ["owners"], Int(|owners| + 1));
  }

  lemma AddDecoded(d: Json, id: string)
    requires d.Obj? && d.Get("ns") == Some(Str("registry")) && d.Get("op") == Some(Str("add"))
    requires d.Get("path") == Some(Arr([Str("agents"), Str(id), Str("threshold")]))
    ensures Decode(d) == Some(Delta.Delta(Deltas.Op.Add, RecordPath(id) + ["threshold"], d.Get("value")))
  {
    var items := [Str("agents"), Str(id), Str("threshold")];
    var path := Owners.StrItems(items);
    assert items[0].s == "agents" && items[1].s == id && items[2].s == "threshold";
    assert path.value == ["agents", id, "threshold"];
    assert ["registry"] + ["agents", id, "threshold"] == RecordPath(id) + ["threshold"];
    assert "add"[0] == 'a' && "set"[0] == 's' && "delete"[0] == 'd';
    hide Owners.StrItems;
  }
}
