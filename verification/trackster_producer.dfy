/** Building one trackster per simulated cluster from the simulated-to-reconstructed
    association, and the per-layer-cluster output mask that records how much of
    each layer cluster's energy the simulated clusters have claimed. */
module TrackstersFromSimClusters {
  import opened ParticleTypes

  /** A simulated truth cluster, reduced to what the classification reads. */
  datatype SimCluster = SimCluster(pdgId: int, charge: int)

  /** One associated layer cluster: its index, the energy it shares with the
      simulated cluster, and the association score (carried, never read). */
  datatype Share = Share(layerCluster: nat, sharedEnergy: real, score: real)

  /** One entry of the simulated-to-reconstructed association: the index of the
      simulated cluster and the layer clusters it shares energy with. */
  datatype SimToReco = SimToReco(simCluster: nat, shares: seq<Share>)

  /** The part of a trackster this producer fills in. */
  datatype Trackster = Trackster(
    vertices: seq<nat>,
    vertexMultiplicity: seq<int>,
    idProbabilities: seq<real>,
    seedIndex: nat)

  // ---------------------------------------------------------------------------
  // Well-formed input: every index the producer dereferences is in range.

  predicate MaskIndexed(shares: seq<Share>, inputMask: seq<real>)
  {
    forall j :: 0 <= j < |shares| ==> shares[j].layerCluster < |inputMask|
  }

  /** A share passes the input mask when its layer cluster's mask entry is positive. */
  predicate Accepted(share: Share, inputMask: seq<real>)
    requires share.layerCluster < |inputMask|
  {
    inputMask[share.layerCluster] > 0.0
  }

  /** Every share indexes both the input mask and the layer clusters, and an
      accepted share's layer cluster has nonzero energy (it is divided by). */
  predicate ValidShares(shares: seq<Share>, lcEnergy: seq<real>, inputMask: seq<real>)
  {
    MaskIndexed(shares, inputMask)
    && forall j :: 0 <= j < |shares| ==>
         shares[j].layerCluster < |lcEnergy|
         && (inputMask[shares[j].layerCluster] > 0.0 ==> lcEnergy[shares[j].layerCluster] != 0.0)
  }

  predicate ValidEntries(assoc: seq<SimToReco>, lcEnergy: seq<real>, inputMask: seq<real>)
  {
    forall k :: 0 <= k < |assoc| ==> ValidShares(assoc[k].shares, lcEnergy, inputMask)
  }

  predicate ValidInput(assoc: seq<SimToReco>, numSimClusters: nat, lcEnergy: seq<real>, inputMask: seq<real>)
  {
    ValidEntries(assoc, lcEnergy, inputMask)
    && forall k :: 0 <= k < |assoc| ==> assoc[k].simCluster < numSimClusters
  }

  // ---------------------------------------------------------------------------
  // Arithmetic of one share.

  /** Fraction of the layer cluster's energy that the simulated cluster claims. */
  function Fraction(share: Share, lcEnergy: seq<real>): (f: real)
    requires share.layerCluster < |lcEnergy| && lcEnergy[share.layerCluster] != 0.0
    ensures f * lcEnergy[share.layerCluster] == share.sharedEnergy
  {
    share.sharedEnergy / lcEnergy[share.layerCluster]
  }

  function Clamp(x: real, lo: real, hi: real): real
  {
    if x < lo then lo else if hi < x then hi else x
  }

  /** The vertex multiplicity stored for a fraction: the reciprocal clamped to
      [0, 255] and truncated to an unsigned byte. A zero fraction has an infinite
      reciprocal, which the clamp turns into 255. For a positive fraction the
      result is the whole part of the reciprocal (how many such shares make up
      the layer cluster), capped at 255; a negative fraction gives 0. */
  function Multiplicity(fraction: real): (m: int)
    ensures 0 <= m <= 255
    ensures fraction < 0.0 ==> m == 0
    ensures fraction == 0.0 ==> m == 255
    ensures fraction > 0.0 ==>
              m as real <= 1.0 / fraction && (m == 255 || 1.0 / fraction < m as real + 1.0)
  {
    if fraction == 0.0 then 255 else Clamp(1.0 / fraction, 0.0, 255.0).Floor
  }

  // ---------------------------------------------------------------------------
  // Specification of one trackster. Each function describes the first n shares
  // and recurses on the last of them, the order in which the producer visits them.

  /** Indices of the accepted layer clusters among the first n shares, in
      association order. */
  function Vertices(shares: seq<Share>, n: nat, inputMask: seq<real>): (v: seq<nat>)
    requires n <= |shares| && MaskIndexed(shares, inputMask)
    ensures |v| <= n
    ensures forall j :: 0 <= j < |v| ==> v[j] < |inputMask| && inputMask[v[j]] > 0.0
  {
    if n == 0 then []
    else
      Vertices(shares, n - 1, inputMask)
      + (if Accepted(shares[n - 1], inputMask) then [shares[n - 1].layerCluster] else [])
  }

  /** Multiplicities of the accepted layer clusters among the first n shares, in
      association order. */
  function Multiplicities(shares: seq<Share>, n: nat, lcEnergy: seq<real>, inputMask: seq<real>): (m: seq<int>)
    requires n <= |shares| && ValidShares(shares, lcEnergy, inputMask)
    ensures |m| == |Vertices(shares, n, inputMask)|
    ensures forall j :: 0 <= j < |m| ==> 0 <= m[j] <= 255
  {
    if n == 0 then []
    else
      Multiplicities(shares, n - 1, lcEnergy, inputMask)
      + (if Accepted(shares[n - 1], inputMask) then [Multiplicity(Fraction(shares[n - 1], lcEnergy))] else [])
  }

  /** Reference definition of which of the first n shares are kept: the
      positions of the accepted ones, strictly increasing. */
  function AcceptedPositions(shares: seq<Share>, n: nat, inputMask: seq<real>): (p: seq<nat>)
    requires n <= |shares| && MaskIndexed(shares, inputMask)
    ensures forall a, b :: 0 <= a < b < |p| ==> p[a] < p[b]
    ensures forall a :: 0 <= a < |p| ==> p[a] < n && Accepted(shares[p[a]], inputMask)
    ensures forall k :: 0 <= k < n ==> (k in p <==> Accepted(shares[k], inputMask))
  {
    if n == 0 then []
    else
      var p0 := AcceptedPositions(shares, n - 1, inputMask);
      if Accepted(shares[n - 1], inputMask) then p0 + [n - 1] else p0
  }

  /** The identification probabilities of a trackster of type t: one on t, zero
      on every other type. The vector is well defined because distinct types
      occupy distinct slots (OrdinalInjective). */
  function TypeProbabilities(t: ParticleType): (p: seq<real>)
    ensures |p| == NumTypes
    ensures forall u :: p[Ordinal(u)] == (if u == t then 1.0 else 0.0)
  {
    seq(NumTypes, i => if i == Ordinal(t) then 1.0 else 0.0)
  }

  /** A trackster's probabilities once zeroed: none on any type. */
  function ZeroProbabilities(): (p: seq<real>)
    ensures |p| == NumTypes && forall i :: 0 <= i < NumTypes ==> p[i] == 0.0
  {
    seq(NumTypes, _ => 0.0)
  }

  /** Zeroing the probabilities and then setting that of t to one gives
      exactly the probabilities of a trackster of type t. */
  lemma OneHotProbabilities(t: ParticleType)
    ensures ZeroProbabilities()[Ordinal(t) := 1.0] == TypeProbabilities(t)
  {
    var p, q := ZeroProbabilities()[Ordinal(t) := 1.0], TypeProbabilities(t);
    forall i | 0 <= i < NumTypes
      ensures p[i] == q[i]
    {
    }
  }

  /** The trackster built for one association entry: parallel vertex and
      multiplicity vectors, seeded by the simulated cluster, with one
      probability slot per type. */
  function BuildTrackster(entry: SimToReco, simClusters: seq<SimCluster>,
                          lcEnergy: seq<real>, inputMask: seq<real>): (t: Trackster)
    requires entry.simCluster < |simClusters|
    requires ValidShares(entry.shares, lcEnergy, inputMask)
    ensures |t.vertices| == |t.vertexMultiplicity| && |t.idProbabilities| == NumTypes
    ensures t.seedIndex == entry.simCluster
  {
    var sc := simClusters[entry.simCluster];
    var n := |entry.shares|;
    Trackster(Vertices(entry.shares, n, inputMask),
              Multiplicities(entry.shares, n, lcEnergy, inputMask),
              TypeProbabilities(TypeFromPdgId(sc.pdgId, sc.charge)),
              entry.simCluster)
  }

  /** The tracksters built for the first n association entries, in order. */
  function Tracksters(assoc: seq<SimToReco>, n: nat, simClusters: seq<SimCluster>,
                      lcEnergy: seq<real>, inputMask: seq<real>): (ts: seq<Trackster>)
    requires n <= |assoc| && ValidInput(assoc, |simClusters|, lcEnergy, inputMask)
    ensures |ts| == n
    ensures forall k :: 0 <= k < n ==> ts[k] == BuildTrackster(assoc[k], simClusters, lcEnergy, inputMask)
  {
    if n == 0 then []
    else Tracksters(assoc, n - 1, simClusters, lcEnergy, inputMask)
         + [BuildTrackster(assoc[n - 1], simClusters, lcEnergy, inputMask)]
  }

  // ---------------------------------------------------------------------------
  // Specification of the output mask: every entry starts at one and each
  // accepted share subtracts its fraction from its layer cluster's entry.

  function Ones(n: nat): (m: seq<real>)
    ensures |m| == n && forall i :: 0 <= i < n ==> m[i] == 1.0
  {
    seq(n, _ => 1.0)
  }

  /** The mask after the first n shares of one entry have been applied. */
  function ApplyShares(mask: seq<real>, shares: seq<Share>, n: nat, lcEnergy: seq<real>, inputMask: seq<real>): (r: seq<real>)
    requires |mask| == |lcEnergy| && n <= |shares| && ValidShares(shares, lcEnergy, inputMask)
    ensures |r| == |mask|
  {
    if n == 0 then mask
    else
      var r0 := ApplyShares(mask, shares, n - 1, lcEnergy, inputMask);
      var last := shares[n - 1];
      if Accepted(last, inputMask) then
        r0[last.layerCluster := r0[last.layerCluster] - Fraction(last, lcEnergy)]
      else r0
  }

  /** The mask after the first n entries have been applied, each in full. */
  function ApplyEntries(mask: seq<real>, assoc: seq<SimToReco>, n: nat, lcEnergy: seq<real>, inputMask: seq<real>): (r: seq<real>)
    requires |mask| == |lcEnergy| && n <= |assoc| && ValidEntries(assoc, lcEnergy, inputMask)
    ensures |r| == |mask|
  {
    if n == 0 then mask
    else
      var shares := assoc[n - 1].shares;
      ApplyShares(ApplyEntries(mask, assoc, n - 1, lcEnergy, inputMask), shares, |shares|, lcEnergy, inputMask)
  }

  /** The output mask: one entry per layer cluster. */
  function OutputMask(assoc: seq<SimToReco>, lcEnergy: seq<real>, inputMask: seq<real>): (r: seq<real>)
    requires ValidEntries(assoc, lcEnergy, inputMask)
    ensures |r| == |lcEnergy|
  {
    ApplyEntries(Ones(|lcEnergy|), assoc, |assoc|, lcEnergy, inputMask)
  }

  // ---------------------------------------------------------------------------
  // The producer.

  /** The body of the producer's loop for one association entry: keeps the
      shares whose layer cluster passes the input mask, records each one's
      multiplicity, subtracts its fraction from the output mask in place, and
      labels the trackster with the type of its simulated cluster. */
  method MakeTrackster(entry: SimToReco, simClusters: seq<SimCluster>,
                       lcEnergy: seq<real>, inputMask: seq<real>, mask: array<real>)
    returns (trackster: Trackster)
    requires entry.simCluster < |simClusters|
    requires ValidShares(entry.shares, lcEnergy, inputMask) && mask.Length == |lcEnergy|
    modifies mask
    ensures trackster == BuildTrackster(entry, simClusters, lcEnergy, inputMask)
    ensures mask[..] == ApplyShares(old(mask[..]), entry.shares, |entry.shares|, lcEnergy, inputMask)
  {
    var shares := entry.shares;
    var vertices: seq<nat> := [];
    var multiplicity: seq<int> := [];
    var j := 0;
    while j < |shares|
      invariant 0 <= j <= |shares|
      invariant vertices == Vertices(shares, j, inputMask)
      invariant multiplicity == Multiplicities(shares, j, lcEnergy, inputMask)
      invariant mask[..] == ApplyShares(old(mask[..]), shares, j, lcEnergy, inputMask)
    {
      var share := shares[j];
      if inputMask[share.layerCluster] > 0.0 {
        vertices := vertices + [share.layerCluster];
        var fraction := share.sharedEnergy / lcEnergy[share.layerCluster];
        mask[share.layerCluster] := mask[share.layerCluster] - fraction;
        multiplicity := multiplicity + [Multiplicity(fraction)];
      }
      j := j + 1;
    }
    var sc := simClusters[entry.simCluster];
    var probabilities := ZeroProbabilities();
    var t := TypeFromPdgId(sc.pdgId, sc.charge);
    probabilities := probabilities[Ordinal(t) := 1.0];
    OneHotProbabilities(t);
    trackster := Trackster(vertices, multiplicity, probabilities, entry.simCluster);
  }

  /** Emits one trackster per association entry, in association order, and the
      output mask, a vector of ones that the entries update in place. */
  method Produce(assoc: seq<SimToReco>, simClusters: seq<SimCluster>,
                 lcEnergy: seq<real>, inputMask: seq<real>)
    returns (result: seq<Trackster>, outputMask: seq<real>)
    requires ValidInput(assoc, |simClusters|, lcEnergy, inputMask)
    ensures |result| == |assoc|
    ensures forall k :: 0 <= k < |assoc| ==>
              result[k] == BuildTrackster(assoc[k], simClusters, lcEnergy, inputMask)
    ensures outputMask == OutputMask(assoc, lcEnergy, inputMask)
  {
    var mask := new real[|lcEnergy|](_ => 1.0);
    assert mask[..] == Ones(|lcEnergy|) by {
      assert forall i :: 0 <= i < mask.Length ==> mask[i] == 1.0;
    }
    result := [];
    var k := 0;
    while k < |assoc|
      invariant 0 <= k <= |assoc|
      invariant result == Tracksters(assoc, k, simClusters, lcEnergy, inputMask)
      invariant mask[..] == ApplyEntries(Ones(|lcEnergy|), assoc, k, lcEnergy, inputMask)
    {
      var trackster := MakeTrackster(assoc[k], simClusters, lcEnergy, inputMask, mask);
      result := result + [trackster];
      k := k + 1;
    }
    outputMask := mask[..];
  }
}
