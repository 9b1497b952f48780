/** Exactly which effects keep the owner records within the bound, and exactly which runs do. The
    check of the reducer looks at a set of one owner field only; every other write is judged here. */
module OwnerBound {
  import opened Wrappers
  import opened JsonTree
  import opened Events
  import opened Deltas
  import opened Reducer
  import opened Ports
  import opened Ledgers
  import opened LedgerStep
  import opened Runs
  import opened OwnerRuns
  import Owners

  /** A record that is absent, incomplete or well formed. */
  predicate RecordFine(rec: Option<Json>) {
    rec.Some? && rec.value.Get("owners").Some? && rec.value.Get("threshold").Some? ==>
      Owners.WellFormed(rec.value.Get("owners"), rec.value.Get("threshold"))
  }

  /** The record of an agent inside a value that is written at or above it. */
  function Inside(full: Path, x: Json, id: string): Option<Json> {
    if full <= RecordPath(id) then GetIn(x, RecordPath(id)[|full|..]) else None
  }

  /** The path is an owner field of a record, or leads into one. */
  predicate IntoField(full: Path) {
    |full| >= 4 && full[..3] == RecordPath(full[2]) && IsBound(full[3])
  }

  /** Writing x keeps the bound: each record inside x is incomplete or well formed; a write into an
      owner field finds the other field absent, or is the whole field and goes with the other. */
  ghost predicate WriteKeeps(s: Json, full: Path, x: Json) {
    && (forall id: string :: RecordFine(Inside(full, x, id)))
    && (IntoField(full) ==>
        var owners, threshold := Field(s, full[2], "owners"), Field(s, full[2], "threshold");
        if full[3] == "owners" then threshold.None? || (|full| == 4 && Owners.WellFormed(Some(x), threshold))
        else owners.None? || (|full| == 4 && Owners.WellFormed(owners, Some(x))))
  }

  /** What the effect writes, if it is no delete. */
  function Written(s: Json, d: Delta): Option<Json> {
    match d.op
    case Set => Some(d.value.GetOr(Null))
    case Delete => None
    case Add => (match Operands(s, d.full, d.value) case Ok((cur, n)) => Some(Int(cur + n)) case Err(_) => None)
    case Sub => (match Operands(s, d.full, d.value) case Ok((cur, n)) => Some(Int(cur - n)) case Err(_) => None)
  }

  ghost predicate KeepsBound(s: Json, d: Json) {
    Decode(d).Some? && Written(s, Decode(d).value).Some? ==>
      WriteKeeps(s, Decode(d).value.full, Written(s, Decode(d).value).value)
  }

  // --- one record after a write ---

  lemma FineIs(s: Json, id: string)
    ensures RecordOk(s, id) <==> RecordFine(GetIn(s, RecordPath(id)))
  {
    RecordRead(s, id, "owners");
    RecordRead(s, id, "threshold");
    hide Field; hide GetIn; hide RecordPath; hide Owners.WellFormed;
  }

  lemma WrittenAbove(s: Json, full: Path, x: Json, id: string)
    requires full <= RecordPath(id)
    ensures RecordOk(SetIn(s, full, x), id) <==> RecordFine(Inside(full, x, id))
  {
    hide RecordOk; hide RecordFine; hide RecordPath; hide SetIn; hide GetIn;
    var t, rest := SetIn(s, full, x), RecordPath(id)[|full|..];
    assert RecordPath(id) == full + rest;
    FineIs(t, id);
    GetSet(s, full, x);
    GetAppend(t, full, rest);
  }

  lemma SplitField(full: Path)
    requires IntoField(full)
    ensures full == RecordPath(full[2]) + [full[3]] + full[4..]
    ensures forall id :: !(full <= RecordPath(id))
    ensures forall id :: id != full[2] ==> !(RecordPath(id) <= full)
  {
  }

  lemma SetRootIs(v: Json, rest: Path, x: Json)
    ensures rest == [] ==> SetIn(v, rest, x) == x
    ensures rest != [] ==> SetIn(v, rest, x).Obj?
  {
  }

  lemma ObjNeverFits(o: Json, other: Option<Json>)
    requires o.Obj?
    ensures !Owners.WellFormed(Some(o), other) && !Owners.WellFormed(other, Some(o))
  {
  }

  lemma OtherFieldRead(s: Json, full: Path, x: Json, id: string, g: string)
    requires IntoField(full) && (id != full[2] || g != full[3])
    ensures Field(SetIn(s, full, x), id, g) == Field(s, id, g)
  {
    SplitField(full);
    OtherRecord(full[2], id, full[3], g);
    hide *;
    DisjointExtend(RecordPath(full[2]) + [full[3]], full[4..], RecordPath(id) + [g]);
    GetSetDisjoint(s, full, RecordPath(id) + [g], x);
    FieldIs(s, id, g);
    FieldIs(SetIn(s, full, x), id, g);
  }

  lemma FieldIs(s: Json, id: string, f: string)
    ensures Field(s, id, f) == GetIn(s, RecordPath(id) + [f])
  {
  }

  lemma OwnFieldRead(s: Json, full: Path, x: Json) returns (y: Json)
    requires IntoField(full)
    ensures Field(SetIn(s, full, x), full[2], full[3]) == Some(y)
    ensures if |full| == 4 then y == x else y.Obj?
  {
    SplitField(full);
    hide *;
    var p, rest := RecordPath(full[2]) + [full[3]], full[4..];
    var old_ := GetIn(s, p).GetOr(Null);
    y := SetIn(old_, rest, x);
    SetAppend(s, p, rest, x);
    GetSet(s, p, y);
    SetRootIs(old_, rest, x);
    FieldIs(SetIn(s, full, x), full[2], full[3]);
  }

  lemma OtherBound(f: string)
    requires IsBound(f)
    ensures f == "owners" || f == "threshold"
    ensures "owners" != "threshold"
  {
    assert "owners"[0] == 'o' && "threshold"[0] == 't';
  }

  lemma WrittenField(s: Json, full: Path, x: Json)
    requires IntoField(full)
    ensures RecordOk(SetIn(s, full, x), full[2]) <==>
      var owners, threshold := Field(s, full[2], "owners"), Field(s, full[2], "threshold");
      if full[3] == "owners" then threshold.None? || (|full| == 4 && Owners.WellFormed(Some(x), threshold))
      else owners.None? || (|full| == 4 && Owners.WellFormed(owners, Some(x)))
  {
    hide Owners.WellFormed; hide Field; hide RecordPath; hide SetIn;
    OtherBound(full[3]);
    var id, t := full[2], SetIn(s, full, x);
    var y := OwnFieldRead(s, full, x);
    OtherFieldRead(s, full, x, id, if full[3] == "owners" then "threshold" else "owners");
    if y.Obj? {
      ObjNeverFits(y, Field(t, id, "owners"));
      ObjNeverFits(y, Field(t, id, "threshold"));
    }
  }

  lemma PrefixOfField(full: Path, id: string, f: string)
    requires full <= RecordPath(id) + [f]
    ensures full <= RecordPath(id) || full == RecordPath(id) + [f]
  {
  }

  lemma ExtendsField(full: Path, id: string, f: string)
    requires RecordPath(id) + [f] <= full && IsBound(f)
    ensures IntoField(full) && full[2] == id
  {
    assert full[..3] == RecordPath(id);
  }

  lemma ElsewhereDisjoint(full: Path, id: string, f: string)
    requires !(full <= RecordPath(id)) && !(IntoField(full) && full[2] == id) && IsBound(f)
    ensures Disjoint(full, RecordPath(id) + [f])
  {
    hide IntoField; hide RecordPath; hide IsBound;
    if full <= RecordPath(id) + [f] { PrefixOfField(full, id, f); }
    if RecordPath(id) + [f] <= full { ExtendsField(full, id, f); }
  }

  lemma WrittenElsewhere(s: Json, full: Path, x: Json, id: string)
    requires !(full <= RecordPath(id)) && !(IntoField(full) && full[2] == id)
    ensures RecordOk(SetIn(s, full, x), id) == RecordOk(s, id)
    ensures full != [] ==> RecordOk(DeleteIn(s, full), id) == RecordOk(s, id)
  {
    hide *;
    BoundNames();
    ElsewhereDisjoint(full, id, "owners");
    ElsewhereDisjoint(full, id, "threshold");
    GetSetDisjoint(s, full, RecordPath(id) + ["owners"], x);
    GetSetDisjoint(s, full, RecordPath(id) + ["threshold"], x);
    SameRecord(s, SetIn(s, full, x), id);
    if full != [] {
      GetDeleteDisjoint(s, full, RecordPath(id) + ["owners"]);
      GetDeleteDisjoint(s, full, RecordPath(id) + ["threshold"]);
      SameRecord(s, DeleteIn(s, full), id);
    }
  }

  lemma BoundNames()
    ensures IsBound("owners") && IsBound("threshold")
  {
  }

  lemma SameRecord(s: Json, t: Json, id: string)
    requires GetIn(t, RecordPath(id) + ["owners"]) == GetIn(s, RecordPath(id) + ["owners"])
    requires GetIn(t, RecordPath(id) + ["threshold"]) == GetIn(s, RecordPath(id) + ["threshold"])
    ensures RecordOk(t, id) == RecordOk(s, id)
  {
    hide GetIn; hide RecordPath; hide Owners.WellFormed;
  }

  lemma NotAbove(full: Path, x: Json, id: string)
    requires !(full <= RecordPath(id))
    ensures RecordFine(Inside(full, x, id))
  {
    hide Owners.WellFormed; hide RecordPath; hide GetIn;
  }

  /** On records within the bound, a write keeps them there exactly when WriteKeeps says so. */
  lemma WriteExact(s: Json, full: Path, x: Json)
    requires RecordsOk(s)
    ensures RecordsOk(SetIn(s, full, x)) <==> WriteKeeps(s, full, x)
  {
    hide RecordOk; hide RecordFine; hide Inside; hide RecordPath; hide SetIn; hide Field; hide Owners.WellFormed;
    hide IsBound;
    var t := SetIn(s, full, x);
    if IntoField(full) {
      SplitField(full);
      WrittenField(s, full, x);
    }
    forall id: string
      ensures RecordOk(t, id)
        <==> (RecordFine(Inside(full, x, id)) && (IntoField(full) && id == full[2] ==> RecordOk(t, full[2])))
    {
      if full <= RecordPath(id) {
        WrittenAbove(s, full, x, id);
      } else {
        NotAbove(full, x, id);
        if !(IntoField(full) && full[2] == id) {
          WrittenElsewhere(s, full, x, id);
          assert RecordOk(s, id);
        }
      }
    }
  }

  // --- deletes ---

  lemma DeleteOnLeaf(v: Json, rest: Path)
    requires rest != [] && !v.Obj?
    ensures DeleteIn(v, rest) == v
  {
  }

  lemma WellFormedLeaves(o: Option<Json>, t: Option<Json>)
    requires Owners.WellFormed(o, t)
    ensures o.Some? && t.Some? && !o.value.Obj? && !t.value.Obj?
  {
  }

  lemma DeletedField(s: Json, full: Path)
    requires IntoField(full) && RecordOk(s, full[2])
    ensures RecordOk(DeleteIn(s, full), full[2])
  {
    var id, t := full[2], DeleteIn(s, full);
    SplitField(full);
    OtherBound(full[3]);
    hide Owners.WellFormed; hide Field; hide RecordPath; hide DeleteIn;
    var f, rest := full[3], full[4..];
    var g := if f == "owners" then "threshold" else "owners";
    DeletedOther(s, full, g);
    DeletedOwn(s, full);
    if Field(s, id, f).Some? && Field(s, id, g).Some? {
      WellFormedLeaves(Field(s, id, "owners"), Field(s, id, "threshold"));
    }
  }

  lemma DeletedOther(s: Json, full: Path, g: string)
    requires IntoField(full) && g != full[3]
    ensures Field(DeleteIn(s, full), full[2], g) == Field(s, full[2], g)
  {
    SplitField(full);
    OtherRecord(full[2], full[2], full[3], g);
    hide *;
    DisjointExtend(RecordPath(full[2]) + [full[3]], full[4..], RecordPath(full[2]) + [g]);
    GetDeleteDisjoint(s, full, RecordPath(full[2]) + [g]);
    FieldIs(s, full[2], g);
    FieldIs(DeleteIn(s, full), full[2], g);
  }

  lemma DeletedOwn(s: Json, full: Path)
    requires IntoField(full)
    ensures var o := Field(s, full[2], full[3]);
      && (o.None? ==> Field(DeleteIn(s, full), full[2], full[3]).None?)
      && (o.Some? && !o.value.Obj? ==> Field(DeleteIn(s, full), full[2], full[3]) in {None, o})
  {
    SplitField(full);
    hide *;
    var p, rest := RecordPath(full[2]) + [full[3]], full[4..];
    FieldIs(s, full[2], full[3]);
    FieldIs(DeleteIn(s, full), full[2], full[3]);
    if rest == [] {
      assert p + [] == p && full == p;
      GetDeleted(s, p, []);
    } else {
      GetDeleteBelow(s, p, rest);
      if GetIn(s, p).Some? && !GetIn(s, p).value.Obj? { DeleteOnLeaf(GetIn(s, p).value, rest); }
    }
  }

  lemma DeletedAbove(s: Json, full: Path, id: string)
    requires full <= RecordPath(id) && full != []
    ensures RecordOk(DeleteIn(s, full), id)
  {
    var rest := RecordPath(id)[|full|..];
    assert RecordPath(id) == full + rest;
    hide RecordOk; hide RecordPath; hide GetIn; hide DeleteIn;
    GetDeleted(s, full, rest);
    FineIs(DeleteIn(s, full), id);
  }

  /** A delete never breaks the bound. */
  lemma DeleteKeeps(s: Json, full: Path)
    requires RecordsOk(s) && full != []
    ensures RecordsOk(DeleteIn(s, full))
  {
    hide RecordOk; hide DeleteIn; hide RecordPath; hide IsBound;
    forall id ensures RecordOk(DeleteIn(s, full), id) {
      assert RecordOk(s, id);
      if full <= RecordPath(id) { DeletedAbove(s, full, id); }
      else if IntoField(full) && full[2] == id { DeletedField(s, full); }
      else { WrittenElsewhere(s, full, Null, id); }
    }
  }

  // --- one effect ---

  lemma DeltaWritten(s: Json, d: Json)
    requires ApplyDelta(s, d).Ok?
    ensures Decode(d).Some?
    ensures var delta, r := Decode(d).value, ApplyDelta(s, d).value;
      if delta.op.Delete? then r == DeleteIn(s, delta.full) && Written(s, delta).None?
      else Written(s, delta).Some? && r == SetIn(s, delta.full, Written(s, delta).value)
  {
    hide Decode; hide SetIn; hide DeleteIn; hide GetIn; hide Deltas.Operands; hide EnforceOwnerRecord;
    var delta := Decode(d).value;
    match delta.op {
      case Set => EnforceReturns(SetIn(s, delta.full, delta.value.GetOr(Null)), delta.full);
      case Delete =>
      case Add => ArithCases(s, delta.full, delta.value, true);
      case Sub => ArithCases(s, delta.full, delta.value, false);
    }
  }

  /** On records within the bound, an accepted effect keeps them there exactly when KeepsBound says. */
  lemma DeltaKeepsExactly(s: Json, d: Json)
    requires RecordsOk(s) && ApplyDelta(s, d).Ok?
    ensures RecordsOk(ApplyDelta(s, d).value) <==> KeepsBound(s, d)
  {
    hide *;
    DeltaWritten(s, d);
    var delta := Decode(d).value;
    KeepsUnfolds(s, d);
    if delta.op.Delete? {
      DecodedPath(d);
      DeleteKeeps(s, delta.full);
    } else {
      WriteExact(s, delta.full, Written(s, delta).value);
    }
  }

  lemma DecodedPath(d: Json)
    ensures Decode(d).Some? ==> Decode(d).value.full != []
  {
  }

  lemma KeepsUnfolds(s: Json, d: Json)
    requires Decode(d).Some?
    ensures var delta := Decode(d).value;
      KeepsBound(s, d) <==> (Written(s, delta).Some? ==> WriteKeeps(s, delta.full, Written(s, delta).value))
  {
    hide WriteKeeps; hide Written; hide Decode;
  }

  /** The condition, by path and operation, on a record that holds both fields. A delete and a set of
      exactly one owner field keep the bound; adding to or subtracting from the threshold does exactly
      when the new threshold is between 1 and the number of owners; setting the whole record does
      exactly when the new record is incomplete or well formed; arithmetic on owners and any write
      below an owner field never do. */
  lemma KeepsBoundCases(s: Json, d: Json, id: string)
    requires RecordsOk(s) && ApplyDelta(s, d).Ok? && Field(s, id, "owners").Some? && Field(s, id, "threshold").Some?
    ensures Decode(d).Some? && Field(s, id, "owners").value.Arr? && Field(s, id, "threshold").value.Int?
    ensures var delta, owners, t :=
      Decode(d).value, Field(s, id, "owners").value.items, Field(s, id, "threshold").value.n;
      && (delta.op.Delete? ==> KeepsBound(s, d))
      && (delta.op.Set? && IsOwnerPath(delta.full) ==> KeepsBound(s, d))
      && (delta.full == RecordPath(id) + ["threshold"] && (delta.op.Add? || delta.op.Sub?) ==>
          && Deltas.Operands(s, delta.full, delta.value).Ok?
          && var n := Deltas.Operands(s, delta.full, delta.value).value.1;
            KeepsBound(s, d) <==> 1 <= (if delta.op.Add? then t + n else t - n) <= |owners|)
      && (delta.full == RecordPath(id) && delta.op.Set?
        ==> (KeepsBound(s, d) <==> RecordFine(Some(delta.value.GetOr(Null)))))
      && (delta.full == RecordPath(id) + ["owners"] && (delta.op.Add? || delta.op.Sub?) ==> !KeepsBound(s, d))
      && (IntoField(delta.full) && delta.full[2] == id && |delta.full| > 4 && !delta.op.Delete? ==> !KeepsBound(s, d))
  {
    hide *;
    CompleteRecord(s, id);
    DeltaWritten(s, d);
    KeepsUnfolds(s, d);
    var delta := Decode(d).value;
    if delta.op.Set? && IsOwnerPath(delta.full) { SetFieldKeeps(s, d); }
    if delta.full == RecordPath(id) + ["threshold"] && (delta.op.Add? || delta.op.Sub?) { ThresholdArith(s, d, id); }
    if delta.full == RecordPath(id) && delta.op.Set? { SetRecord(s, d, id); }
    if delta.full == RecordPath(id) + ["owners"] && (delta.op.Add? || delta.op.Sub?) { OwnersArith(s, d, id); }
    if |delta.full| > 4 && IntoField(delta.full) && delta.full[2] == id && !delta.op.Delete? {
      BelowField(s, delta.full, Written(s, delta).value);
    }
  }

  lemma CompleteRecord(s: Json, id: string)
    requires RecordsOk(s) && Field(s, id, "owners").Some? && Field(s, id, "threshold").Some?
    ensures Field(s, id, "owners").value.Arr? && Field(s, id, "threshold").value.Int?
    ensures Owners.WellFormed(Field(s, id, "owners"), Field(s, id, "threshold"))
  {
    hide Field;
    assert RecordOk(s, id);
  }

  lemma SetFieldKeeps(s: Json, d: Json)
    requires RecordsOk(s) && ApplyDelta(s, d).Ok? && Decode(d).Some?
    requires Decode(d).value.op.Set? && IsOwnerPath(Decode(d).value.full)
    ensures KeepsBound(s, d)
  {
    hide Decode; hide RecordsOk; hide Field; hide EnforceOwnerRecord; hide SetIn; hide KeepsBound;
    var delta := Decode(d).value;
    SetOwnerKeeps(s, delta.full[2], delta.full[3], delta.value.GetOr(Null));
    EnforceReturns(SetIn(s, delta.full, delta.value.GetOr(Null)), delta.full);
    DeltaKeepsExactly(s, d);
  }

  lemma FieldPath(id: string, f: string)
    requires IsBound(f)
    ensures var full := RecordPath(id) + [f];
      IntoField(full) && full[2] == id && full[3] == f && |full| == 4
    ensures forall x: Json, other: string :: RecordFine(Inside(RecordPath(id) + [f], x, other))
  {
    assert (RecordPath(id) + [f])[..3] == RecordPath(id);
    forall x: Json, other: string ensures RecordFine(Inside(RecordPath(id) + [f], x, other)) {
      NotAbove(RecordPath(id) + [f], x, other);
    }
    hide RecordFine;
  }

  lemma WrittenInt(s: Json, delta: Delta)
    requires (delta.op.Add? || delta.op.Sub?) && Written(s, delta).Some?
    ensures Deltas.Operands(s, delta.full, delta.value).Ok?
    ensures var (cur, n) := Deltas.Operands(s, delta.full, delta.value).value;
      && Written(s, delta) == Some(Int(if delta.op.Add? then cur + n else cur - n))
      && cur == (match GetIn(s, delta.full) case None => 0 case Some(c) => if c.Int? then c.n else 0)
  {
    hide GetIn;
  }

  lemma ThresholdFits(owners: Option<Json>, t: int, u: int)
    requires Owners.WellFormed(owners, Some(Int(t)))
    ensures owners.Some? && owners.value.Arr?
    ensures Owners.WellFormed(owners, Some(Int(u))) <==> 1 <= u <= |owners.value.items|
  {
  }

  lemma ThresholdArith(s: Json, d: Json, id: string)
    requires hide *; Decode(d).Some? && Written(s, Decode(d).value).Some?
    requires Field(s, id, "owners").Some? && Field(s, id, "threshold").Some? && Field(s, id, "threshold").value.Int?
    requires Owners.WellFormed(Field(s, id, "owners"), Field(s, id, "threshold")) && Field(s, id, "owners").value.Arr?
    requires Decode(d).value.full == RecordPath(id) + ["threshold"]
    requires Decode(d).value.op.Add? || Decode(d).value.op.Sub?
    ensures var delta := Decode(d).value;
      && Deltas.Operands(s, delta.full, delta.value).Ok?
      && var n, t := Deltas.Operands(s, delta.full, delta.value).value.1, Field(s, id, "threshold").value.n;
        KeepsBound(s, d) <==> 1 <= (if delta.op.Add? then t + n else t - n) <= |Field(s, id, "owners").value.items|
  {
    hide *;
    BoundNames();
    var delta := Decode(d).value;
    FieldPath(id, "threshold");
    OtherBound("threshold");
    WrittenInt(s, delta);
    FieldIs(s, id, "threshold");
    KeepsUnfolds(s, d);
    KeepsAtField(s, delta.full, Written(s, delta).value);
    ThresholdFits(Field(s, id, "owners"), Field(s, id, "threshold").value.n, Written(s, delta).value.n);
  }

  lemma KeepsAtField(s: Json, full: Path, x: Json)
    requires IntoField(full) && forall other: string :: RecordFine(Inside(full, x, other))
    ensures WriteKeeps(s, full, x) <==>
      var owners, threshold := Field(s, full[2], "owners"), Field(s, full[2], "threshold");
      if full[3] == "owners" then threshold.None? || (|full| == 4 && Owners.WellFormed(Some(x), threshold))
      else owners.None? || (|full| == 4 && Owners.WellFormed(owners, Some(x)))
  {
    hide RecordFine; hide Inside; hide Field; hide IntoField; hide Owners.WellFormed;
  }

  lemma IntIsNoList(n: int, threshold: Option<Json>)
    ensures !Owners.WellFormed(Some(Int(n)), threshold)
  {
  }

  lemma OwnersArith(s: Json, d: Json, id: string)
    requires Decode(d).Some? && Written(s, Decode(d).value).Some? && Field(s, id, "threshold").Some?
    requires Decode(d).value.full == RecordPath(id) + ["owners"]
    requires Decode(d).value.op.Add? || Decode(d).value.op.Sub?
    ensures !KeepsBound(s, d)
  {
    hide *;
    BoundNames();
    var delta := Decode(d).value;
    FieldPath(id, "owners");
    WrittenInt(s, delta);
    KeepsUnfolds(s, d);
    KeepsAtField(s, delta.full, Written(s, delta).value);
    IntIsNoList(Written(s, delta).value.n, Field(s, id, "threshold"));
  }

  lemma BelowField(s: Json, full: Path, x: Json)
    requires IntoField(full) && |full| > 4
    requires Field(s, full[2], "owners").Some? && Field(s, full[2], "threshold").Some?
    ensures !WriteKeeps(s, full, x)
  {
    hide RecordFine; hide Inside; hide Field; hide IntoField; hide Owners.WellFormed;
  }

  lemma OwnRecordOnly(id: string, other: string)
    ensures RecordPath(id) <= RecordPath(other) ==> id == other
    ensures RecordPath(id)[|RecordPath(id)|..] == []
    ensures !IntoField(RecordPath(id))
  {
    assert RecordPath(id)[2] == id && RecordPath(other)[2] == other;
  }

  lemma InsideOwn(id: string, x: Json, other: string)
    ensures Inside(RecordPath(id), x, other) == if id == other then Some(x) else None
  {
    OwnRecordOnly(id, other);
    hide RecordPath;
  }

  lemma SetRecord(s: Json, d: Json, id: string)
    requires Decode(d).Some? && Decode(d).value.full == RecordPath(id) && Decode(d).value.op.Set?
    ensures KeepsBound(s, d) <==> RecordFine(Some(Decode(d).value.value.GetOr(Null)))
  {
    hide RecordFine; hide Inside; hide RecordPath; hide Decode; hide Field; hide IntoField; hide Owners.WellFormed;
    var x := Decode(d).value.value.GetOr(Null);
    OwnRecordOnly(id, id);
    NoRecord();
    forall other ensures Inside(RecordPath(id), x, other) == if id == other then Some(x) else None {
      InsideOwn(id, x, other);
    }
    assert RecordFine(Some(x)) <==> RecordFine(Inside(RecordPath(id), x, id));
  }

  lemma NoRecord()
    ensures RecordFine(None)
  {
  }

  // --- whole runs ---

  /** The records are within the bound before, between and after these effects. */
  ghost predicate WithinThroughout(s: Json, ds: seq<Json>) {
    forall k :: 0 <= k <= |ds| && Commit(s, ds[..k]).Ok? ==> RecordsOk(Commit(s, ds[..k]).value)
  }

  /** Each effect keeps the bound on the state that the ones before it leave. */
  ghost predicate EffectsKeep(s: Json, ds: seq<Json>) {
    forall k :: 0 <= k < |ds| && Commit(s, ds[..k]).Ok? ==> KeepsBound(Commit(s, ds[..k]).value, ds[k])
  }

  lemma CommitPush(s: Json, ds: seq<Json>, k: nat)
    requires k < |ds|
    ensures Commit(s, ds[..k + 1]) == match Commit(s, ds[..k]) case Err(c) => Err(c) case Ok(t) => ApplyDelta(t, ds[k])
  {
    assert ds[..k + 1] == ds[..k] + [ds[k]];
    CommitAppend(s, ds[..k], ds[k]);
  }

  lemma {:induction false} CommitOks(s: Json, ds: seq<Json>, k: nat)
    requires k <= |ds| && Commit(s, ds).Ok?
    ensures Commit(s, ds[..k]).Ok?
    decreases |ds| - k
  {
    hide ApplyDelta;
    if k < |ds| {
      CommitOks(s, ds, k + 1);
      CommitPush(s, ds, k);
    } else {
      assert ds[..k] == ds;
    }
  }

  lemma {:induction false} KeptUpTo(s: Json, ds: seq<Json>, k: nat)
    requires hide *; RecordsOk(s) && Commit(s, ds).Ok? && EffectsKeep(s, ds) && k <= |ds|
    ensures Commit(s, ds[..k]).Ok? && RecordsOk(Commit(s, ds[..k]).value)
    decreases k
  {
    hide RecordsOk; hide KeepsBound; hide ApplyDelta;
    CommitOks(s, ds, k);
    if k == 0 {
      assert ds[..0] == [];
    } else {
      KeptUpTo(s, ds, k - 1);
      CommitPush(s, ds, k - 1);
      DeltaKeepsExactly(Commit(s, ds[..k - 1]).value, ds[k - 1]);
    }
  }

  lemma CommitKeepsExactly(s: Json, ds: seq<Json>)
    requires RecordsOk(s) && Commit(s, ds).Ok?
    ensures WithinThroughout(s, ds) <==> EffectsKeep(s, ds)
  {
    hide RecordsOk; hide KeepsBound; hide ApplyDelta; hide Commit;
    if EffectsKeep(s, ds) {
      forall k | 0 <= k <= |ds| ensures Commit(s, ds[..k]).Ok? && RecordsOk(Commit(s, ds[..k]).value) {
        KeptUpTo(s, ds, k);
      }
    }
    if WithinThroughout(s, ds) {
      forall k | 0 <= k < |ds| ensures Commit(s, ds[..k]).Ok? && KeepsBound(Commit(s, ds[..k]).value, ds[k]) {
        CommitOks(s, ds, k);
        CommitOks(s, ds, k + 1);
        CommitPush(s, ds, k);
        DeltaKeepsExactly(Commit(s, ds[..k]).value, ds[k]);
      }
    }
  }

  /** The effects that event i of the log commits. */
  ghost function CommittedAt(l: Ledger, log: seq<Event>, i: nat): seq<Json>
    requires i < |log|
  {
    var m := LedgerAfter(l, log[..i]);
    if log[i].CalFinalized? && log[i].ch in m.flights then m.flights[log[i].ch].staged else []
  }

  ghost function StateBefore(s: Json, log: seq<Event>, i: nat): Json
    requires i <= |log|
  {
    hide *;
    match Materialize(Rust, s, log[..i]) case Ok(t) => t case Err(_) => s
  }

  /** Before every event, after it, and after each effect that it commits. */
  ghost predicate RecordsThroughout(s: Json, l: Ledger, log: seq<Event>) {
    hide *;
    && (forall i :: 0 <= i <= |log| ==> RecordsOk(StateBefore(s, log, i)))
    && (forall i :: 0 <= i < |log| ==> WithinThroughout(StateBefore(s, log, i), CommittedAt(l, log, i)))
  }

  ghost predicate RunKeepsBound(s: Json, l: Ledger, log: seq<Event>) {
    hide *;
    forall i :: 0 <= i < |log| ==> EffectsKeep(StateBefore(s, log, i), CommittedAt(l, log, i))
  }

  lemma EventRecords(t: Json, m: Ledger, ev: Event)
    requires hide *; Represents(t, m) && Sound(m.flights) && Apply(t, ev).Ok? && RecordsOk(t)
    requires ev.CalFinalized? && ev.ch in m.flights && Commit(t, m.flights[ev.ch].staged).Ok? ==>
      RecordsOk(Commit(t, m.flights[ev.ch].staged).value)
    ensures RecordsOk(Apply(t, ev).value)
  {
    hide Represents; hide Sound; hide RecordsOk; hide Apply; hide SameOutside; hide Perform; hide SafeOp; hide Commit;
    hide SafeDeltas;
    if ev.CalFinalized? {
      FinalizedOutside(t, m, ev);
      SameOutsideRecords(Commit(t, m.flights[ev.ch].staged).value, Apply(t, ev).value);
    } else {
      EventOutside(t, m, ev);
      var ops := OpsOf(m, ev);
      if ops == [] {
        PerformNone(t);
      } else {
        PerformOne(t, ops[0]);
        assert ops == [ops[0]];
        PerformKeepsRecords(t, ops[0]);
      }
      SameOutsideRecords(PerformAll(t, ops).value, Apply(t, ev).value);
    }
  }

  lemma WholeCommit(s: Json, ds: seq<Json>)
    requires WithinThroughout(s, ds) && Commit(s, ds).Ok?
    ensures RecordsOk(Commit(s, ds).value)
  {
    hide RecordsOk; hide Commit;
    assert ds[..|ds|] == ds;
  }

  lemma NoEffects(s: Json)
    requires RecordsOk(s)
    ensures WithinThroughout(s, []) && EffectsKeep(s, [])
  {
    hide RecordsOk;
    assert Commit(s, []) == Ok(s);
  }

  /** One event: its effects stay within the bound exactly when each keeps it, and then so does the
      state after the event. */
  lemma EventExact(s: Json, l: Ledger, log: seq<Event>, i: nat)
    requires hide *; Represents(s, l) && Sound(l.flights) && SafeLog(log) && Materialize(Rust, s, log).Ok? && i < |log|
    requires RecordsOk(StateBefore(s, log, i))
    ensures var t, ds := StateBefore(s, log, i), CommittedAt(l, log, i);
      && (WithinThroughout(t, ds) <==> EffectsKeep(t, ds))
      && (EffectsKeep(t, ds) ==> RecordsOk(StateBefore(s, log, i + 1)))
  {
    hide *;
    Before(s, l, log, i);
    var t, m, ds := StateBefore(s, log, i), LedgerAfter(l, log[..i]), CommittedAt(l, log, i);
    CommittedIs(l, log, i);
    NoEffects(t);
    if log[i].CalFinalized? {
      FinalizedOutside(t, m, log[i]);
      CommitKeepsExactly(t, ds);
      if WithinThroughout(t, ds) { WholeCommit(t, ds); }
    }
    if EffectsKeep(t, ds) { EventRecords(t, m, log[i]); }
  }

  lemma CommittedIs(l: Ledger, log: seq<Event>, i: nat)
    requires i < |log|
    ensures var m := LedgerAfter(l, log[..i]);
      CommittedAt(l, log, i) == if log[i].CalFinalized? && log[i].ch in m.flights then m.flights[log[i].ch].staged
        else []
  {
    hide LedgerAfter;
  }

  /** The state before event i of an accepted run, and what the event makes of it. */
  lemma Before(s: Json, l: Ledger, log: seq<Event>, i: nat)
    requires hide *; Represents(s, l) && Sound(l.flights) && SafeLog(log) && Materialize(Rust, s, log).Ok? && i < |log|
    ensures var t, m := StateBefore(s, log, i), LedgerAfter(l, log[..i]);
      && Represents(t, m) && Sound(m.flights) && Apply(t, log[i]) == Ok(StateBefore(s, log, i + 1))
  {
    hide Represents; hide Sound; hide Apply; hide LedgerAfter; hide SafeEvent;
    if Materialize(Rust, s, log[..i]).Err? { RejectedForGood(Rust, s, log, i); }
    if Materialize(Rust, s, log[..i + 1]).Err? { RejectedForGood(Rust, s, log, i + 1); }
    assert log[..i + 1][..i] == log[..i];
    RunKeeps(s, l, log[..i]);
  }

  lemma {:induction false} StatesKept(s: Json, l: Ledger, log: seq<Event>, i: nat)
    requires hide *; Represents(s, l) && Sound(l.flights) && SafeLog(log) && Materialize(Rust, s, log).Ok? && i <= |log|
    requires RecordsOk(s) && RunKeepsBound(s, l, log)
    ensures RecordsOk(StateBefore(s, log, i))
    decreases i
  {
    hide Represents; hide Sound; hide SafeLog; hide RecordsOk; hide Materialize; hide EffectsKeep; hide CommittedAt;
    hide StateBefore;
    if i == 0 {
      StartsAt(s, log);
    } else {
      StatesKept(s, l, log, i - 1);
      EventExact(s, l, log, i - 1);
    }
  }

  lemma StartsAt(s: Json, log: seq<Event>)
    ensures hide *; StateBefore(s, log, 0) == s
  {
    assert log[..0] == [];
  }

  /** Over an accepted run the owner records are within the bound throughout, before and after every
      event and every committed effect, exactly when each committed effect keeps the bound on the
      state it is applied to. */
  lemma RecordsStayExactly(s: Json, l: Ledger, log: seq<Event>)
    requires Represents(s, l) && Sound(l.flights) && SafeLog(log) && Materialize(Rust, s, log).Ok? && RecordsOk(s)
    ensures RecordsThroughout(s, l, log) <==> RunKeepsBound(s, l, log)
  {
    hide Represents; hide Sound; hide SafeLog; hide RecordsOk; hide Materialize; hide EffectsKeep; hide CommittedAt;
    hide StateBefore; hide WithinThroughout;
    if RunKeepsBound(s, l, log) {
      forall i | 0 <= i <= |log| ensures RecordsOk(StateBefore(s, log, i)) { StatesKept(s, l, log, i); }
      forall i | 0 <= i < |log| ensures WithinThroughout(StateBefore(s, log, i), CommittedAt(l, log, i)) {
        EventExact(s, l, log, i);
      }
    }
    if RecordsThroughout(s, l, log) {
      forall i | 0 <= i < |log| ensures EffectsKeep(StateBefore(s, log, i), CommittedAt(l, log, i)) {
        EventExact(s, l, log, i);
      }
    }
  }
}
