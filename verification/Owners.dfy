/** Owner records of the agent registry: the well-formedness bound that the reducer enforces. */
module Owners {
  import opened Wrappers
  import opened JsonTree
  import opened Text

  const MAX_OWNERS := 16

  /** The strings of an array, or None when some item is not a string. */
  function StrItems(items: seq<Json>): (r: Option<seq<string>>)
    ensures r.Some? <==> forall i :: 0 <= i < |items| ==> items[i].Str?
    ensures r.Some? ==> |r.value| == |items| && forall i :: 0 <= i < |items| ==> r.value[i] == items[i].s
  {
    if items == [] then Some([])
    else if !items[0].Str? then None
    else
      match StrItems(items[1..])
      case None => None
      case Some(rest) => Some([items[0].s] + rest)
  }

  predicate WellFormed(owners: Option<Json>, threshold: Option<Json>) {
    match (owners, threshold)
    case (Some(Arr(items)), Some(Int(t))) =>
      && 1 <= |items| <= MAX_OWNERS
      && 1 <= t <= |items|
      && (forall i :: 0 <= i < |items| ==> items[i].Str? && items[i].s != "")
      && (forall i :: 0 < i < |items| ==> Less(items[i - 1].s, items[i].s))
    case _ => false
  }

  /** The indexed scan of the source; it stops at the first bad owner. */
  method CheckOwnerRecord(owners: Option<Json>, threshold: Option<Json>) returns (ok: bool)
    ensures ok == WellFormed(owners, threshold)
  {
    if owners.None? || !owners.value.Arr? || threshold.None? || !threshold.value.Int? {
      return false;
    }
    var items, t := owners.value.items, threshold.value.n;
    if t < 0 || |items| < 1 || |items| > MAX_OWNERS || t < 1 || t > |items| {
      return false;
    }
    for i := 0 to |items|
      invariant forall j :: 0 <= j < i ==> items[j].Str? && items[j].s != ""
      invariant forall j :: 0 < j < i ==> Less(items[j - 1].s, items[j].s)
    {
      if !items[i].Str? || items[i].s == "" {
        return false;
      }
      if i > 0 {
        LessIrreflexive(items[i].s);
        if items[i].s == items[i - 1].s {
          return false;
        }
        LessTotal(items[i - 1].s, items[i].s);
        if Less(items[i].s, items[i - 1].s) {
          if Less(items[i - 1].s, items[i].s) {
            LessTransitive(items[i].s, items[i - 1].s, items[i].s);
          }
          return false;
        }
      }
    }
    return true;
  }
}
