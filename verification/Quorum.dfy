/** The M-of-N owner quorum over the presented signer listing. */
module Quorum {
  import opened Wrappers
  import opened Text
  import opened JsonTree
  import Owners

  datatype QuorumFault = INVALID_SIGNATURE_SET | QUORUM_NOT_MET

  /** Cardinality, then membership, then order, then the count. */
  function MultisigQuorum(owners: seq<string>, threshold: nat, signers: seq<string>): Option<QuorumFault> {
    if |signers| > |owners| then Some(INVALID_SIGNATURE_SET)
    else if !(forall i :: 0 <= i < |signers| ==> signers[i] != "" && signers[i] in owners)
      then Some(INVALID_SIGNATURE_SET)
    else if !Ascending(signers) then Some(INVALID_SIGNATURE_SET)
    else if |signers| < threshold then Some(QUORUM_NOT_MET)
    else None
  }

  /** The two scans of the source; each stops at its first offender. */
  method CheckQuorum(owners: seq<string>, threshold: nat, signers: seq<string>) returns (fault: Option<QuorumFault>)
    ensures fault == MultisigQuorum(owners, threshold, signers)
  {
    if |signers| > |owners| {
      return Some(INVALID_SIGNATURE_SET);
    }
    for i := 0 to |signers|
      invariant forall j :: 0 <= j < i ==> signers[j] != "" && signers[j] in owners
    {
      if signers[i] == "" || signers[i] !in owners {
        return Some(INVALID_SIGNATURE_SET);
      }
    }
    var i := 1;
    while i < |signers|
      invariant 1 <= i && forall j :: 0 < j < i && j < |signers| ==> Less(signers[j - 1], signers[j])
    {
      LessIrreflexive(signers[i]);
      if signers[i] == signers[i - 1] {
        return Some(INVALID_SIGNATURE_SET);
      }
      if Less(signers[i], signers[i - 1]) {
        if Less(signers[i - 1], signers[i]) {
          LessTransitive(signers[i], signers[i - 1], signers[i]);
        }
        return Some(INVALID_SIGNATURE_SET);
      }
      LessTotal(signers[i - 1], signers[i]);
      i := i + 1;
    }
    if |signers| < threshold {
      return Some(QUORUM_NOT_MET);
    }
    return None;
  }

  lemma SubsetCardinality(a: set<string>, b: set<string>)
    requires a <= b
    ensures |a| <= |b|
  {
    assert b == a + (b - a);
  }

  /** Who signed: the quorum is met exactly when the listing is the ascending listing of a set of at
      least threshold owners. The cardinality test never decides on its own. */
  lemma QuorumExact(owners: seq<string>, threshold: nat, signers: seq<string>)
    requires Owners.WellFormed(Some(Arr(Listed(owners))), Some(Int(threshold)))
    ensures MultisigQuorum(owners, threshold, signers).None? <==>
      signers == Sorted(Elements(signers)) && Elements(signers) <= Elements(owners) && |Elements(signers)| >= threshold
    ensures Ascending(signers) && Elements(signers) <= Elements(owners) ==> |signers| <= |owners|
    ensures MultisigQuorum(owners, threshold, signers) == Some(QUORUM_NOT_MET) <==>
      signers == Sorted(Elements(signers)) && Elements(signers) <= Elements(owners) && |Elements(signers)| < threshold
  {
    var items := Listed(owners);
    assert forall i :: 0 <= i < |owners| ==> owners[i] == items[i].s && owners[i] != "";
    assert Ascending(owners);
    AscendingCardinality(owners);
    if Ascending(signers) {
      AscendingCardinality(signers);
      SortedUnique(signers, Sorted(Elements(signers)));
      if Elements(signers) <= Elements(owners) {
        SubsetCardinality(Elements(signers), Elements(owners));
        forall i | 0 <= i < |signers| ensures signers[i] != "" && signers[i] in owners {
          assert signers[i] in Elements(signers);
        }
      }
    }
    if forall i :: 0 <= i < |signers| ==> signers[i] in owners {
      assert Elements(signers) <= Elements(owners);
    }
  }

  function Listed(owners: seq<string>): (items: seq<Json>)
    ensures |items| == |owners| && forall i :: 0 <= i < |owners| ==> items[i] == Str(owners[i])
  {
    seq(|owners|, i requires 0 <= i < |owners| => Str(owners[i]))
  }

  /** Any set of at least threshold owners can sign. */
  lemma QuorumReachable(owners: seq<string>, threshold: nat, who: set<string>)
    requires Owners.WellFormed(Some(Arr(Listed(owners))), Some(Int(threshold)))
    requires who <= Elements(owners) && |who| >= threshold
    ensures MultisigQuorum(owners, threshold, Sorted(who)).None?
  {
    QuorumExact(owners, threshold, Sorted(who));
  }
}
