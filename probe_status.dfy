/** The per-slot status of a probe point set: the four flags the firmware keeps
    in each slot's bitmask, and what the flags of a run of slots say together. */
module ProbeStatus {

  /** One slot's status bitmask, one boolean per flag. */
  datatype PointStatus = PointStatus(xySet: bool, zSet: bool, xyCorrected: bool, probeError: bool)

  /** The status of a slot in which nothing has been recorded. */
  const Unset := PointStatus(false, false, false, false)

  /** Both the XY and the Z of the slot have been recorded. */
  predicate FullySet(p: PointStatus) {
    p.xySet && p.zSet
  }

  /** Fully recorded, and the Z measurement did not fail. */
  predicate Good(p: PointStatus) {
    FullySet(p) && !p.probeError
  }

  /** The length of the longest prefix of `s` whose slots are all fully set. */
  function DefinedPrefix(s: seq<PointStatus>): (n: nat)
    ensures n <= |s|
    ensures forall i :: 0 <= i < n ==> FullySet(s[i])
    ensures n < |s| ==> !FullySet(s[n])
  {
    if s == [] || !FullySet(s[0]) then 0 else 1 + DefinedPrefix(s[1..])
  }

  /** Without any Z recorded, no point is defined. */
  lemma NoHeightsNoPoints(s: seq<PointStatus>)
    requires forall i :: 0 <= i < |s| ==> !s[i].zSet
    ensures DefinedPrefix(s) == 0
  {
    if s != [] {
      assert !s[0].zSet;
    }
  }
}
