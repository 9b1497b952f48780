/** The effect language: checked updates of one path of the state. */
module Deltas {
  import opened Wrappers
  import opened JsonTree
  import opened Events
  import Owners

  const UINT256_MAX: int := 0x1_00000000_00000000_00000000_00000000_00000000_00000000_00000000_00000000 - 1

  function AsUint(v: Json): Option<nat> {
    if v.Int? && 0 <= v.n <= UINT256_MAX then Some(v.n) else None
  }

  /** An amount of money at a place that may be absent or malformed; those read as zero. */
  function UintOf(v: Option<Json>): (n: nat)
    ensures n <= UINT256_MAX
  {
    match v
    case None => 0
    case Some(j) => if j.Int? && 0 <= j.n <= UINT256_MAX then j.n else 0
  }

  datatype Op = Set | Delete | Add | Sub
  datatype Delta = Delta(op: Op, full: Path, value: Option<Json>)

  function OpOf(s: string): Option<Op> {
    if s == "set" then Some(Set)
    else if s == "delete" then Some(Delete)
    else if s == "add" then Some(Add)
    else if s == "sub" then Some(Sub)
    else None
  }

  function Decode(d: Json): (r: Option<Delta>)
    ensures r.Some? ==> r.value.full != []
  {
    match (d.Get("ns"), d.Get("op"), d.Get("path"))
    case (Some(Str(ns)), Some(Str(op)), Some(Arr(items))) =>
      (match (OpOf(op), Owners.StrItems(items))
       case (Some(o), Some(path)) => Some(Delta.Delta(o, [ns] + path, d.Get("value")))
       case _ => None)
    case _ => None
  }

  /** A committed owner record is checked once both of its fields are there. */
  function EnforceOwnerRecord(s: Json, full: Path): Result<Json, Code> {
    if |full| != 4 || full[0] != "registry" || full[1] != "agents" then Ok(s)
    else if full[3] != "owners" && full[3] != "threshold" then Ok(s)
    else
      match GetIn(s, full[..3])
      case None => Ok(s)
      case Some(rec) =>
        if rec.Get("owners").None? || rec.Get("threshold").None? then Ok(s)
        else if Owners.WellFormed(rec.Get("owners"), rec.Get("threshold")) then Ok(s)
        else Err(BAD_OWNER_RECORD)
  }

  /** The operands of add and sub; an absent target counts as zero. */
  function Operands(s: Json, full: Path, value: Option<Json>): Result<(nat, nat), Code> {
    var cur :- (match GetIn(s, full) case None => Ok(0) case Some(c) => Need(AsUint(c)));
    var v :- Need(value);
    var n :- Need(AsUint(v));
    Ok((cur, n))
  }

  function Arith(s: Json, full: Path, value: Option<Json>, add: bool): Result<Json, Code> {
    var (cur, n) :- Operands(s, full, value);
    if add && cur + n > UINT256_MAX then Err(OVERFLOW)
    else if !add && cur < n then Err(UNDERFLOW)
    else Ok(SetIn(s, full, Int(if add then cur + n else cur - n)))
  }

  function ApplyDelta(s: Json, d: Json): Result<Json, Code> {
    match Decode(d)
    case None => Err(BAD_DELTA)
    case Some(delta) =>
      match delta.op
      case Set => EnforceOwnerRecord(SetIn(s, delta.full, delta.value.GetOr(Null)), delta.full)
      case Delete => Ok(DeleteIn(s, delta.full))
      case Add => Arith(s, delta.full, delta.value, true)
      case Sub => Arith(s, delta.full, delta.value, false)
  }

  /** All staged effects in order, or the first error. */
  function Commit(s: Json, ds: seq<Json>): Result<Json, Code>
    decreases |ds|
  {
    if ds == [] then Ok(s)
    else
      var t :- ApplyDelta(s, ds[0]);
      Commit(t, ds[1..])
  }

  lemma {:induction false} CommitAppend(s: Json, ds: seq<Json>, d: Json)
    ensures Commit(s, ds + [d]) ==
      match Commit(s, ds) case Err(c) => Err(c) case Ok(t) => ApplyDelta(t, d)
    decreases |ds|
  {
    if ds == [] {
      assert ds + [d] == [d];
      assert [d][1..] == [];
    } else {
      assert (ds + [d])[0] == ds[0] && (ds + [d])[1..] == ds[1..] + [d];
      match ApplyDelta(s, ds[0]) {
        case Err(_) =>
        case Ok(t) => CommitAppend(t, ds[1..], d);
      }
    }
  }
}
