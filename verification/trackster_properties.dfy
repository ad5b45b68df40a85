/** Properties of the tracksters and of the output mask that the producer
    builds, stated over the specification functions its methods are proved
    against. */
module TracksterProperties {
  import opened ParticleTypes
  import opened TrackstersFromSimClusters

  // ---------------------------------------------------------------------------
  // Vertices and multiplicities.

  /** The vertices are the layer clusters of the accepted shares, in
      association order: the j-th vertex is the share at the j-th accepted
      position. */
  lemma {:induction false} VerticesAtPositions(shares: seq<Share>, n: nat, inputMask: seq<real>)
    requires n <= |shares| && MaskIndexed(shares, inputMask)
    ensures |Vertices(shares, n, inputMask)| == |AcceptedPositions(shares, n, inputMask)|
    ensures forall j :: 0 <= j < |Vertices(shares, n, inputMask)| ==>
              Vertices(shares, n, inputMask)[j] == shares[AcceptedPositions(shares, n, inputMask)[j]].layerCluster
  {
    if n > 0 {
      VerticesAtPositions(shares, n - 1, inputMask);
      var v0, p0 := Vertices(shares, n - 1, inputMask), AcceptedPositions(shares, n - 1, inputMask);
      var v, p := Vertices(shares, n, inputMask), AcceptedPositions(shares, n, inputMask);
      if Accepted(shares[n - 1], inputMask) {
        assert v == v0 + [shares[n - 1].layerCluster] && p == p0 + [n - 1];
        forall j | 0 <= j < |v|
          ensures v[j] == shares[p[j]].layerCluster
        {
          if j < |v0| {
            assert v[j] == v0[j] && p[j] == p0[j];
          }
        }
      } else {
        assert v == v0 && p == p0;
      }
    }
  }

  /** The multiplicities run parallel to the vertices: the j-th one belongs to
      the share at the j-th accepted position. */
  lemma {:induction false} MultiplicitiesAtPositions(shares: seq<Share>, n: nat, lcEnergy: seq<real>, inputMask: seq<real>)
    requires n <= |shares| && ValidShares(shares, lcEnergy, inputMask)
    ensures |Multiplicities(shares, n, lcEnergy, inputMask)| == |AcceptedPositions(shares, n, inputMask)|
    ensures forall j :: 0 <= j < |Multiplicities(shares, n, lcEnergy, inputMask)| ==>
              Multiplicities(shares, n, lcEnergy, inputMask)[j]
              == Multiplicity(Fraction(shares[AcceptedPositions(shares, n, inputMask)[j]], lcEnergy))
  {
    if n > 0 {
      MultiplicitiesAtPositions(shares, n - 1, lcEnergy, inputMask);
      var m0, p0 := Multiplicities(shares, n - 1, lcEnergy, inputMask), AcceptedPositions(shares, n - 1, inputMask);
      var m, p := Multiplicities(shares, n, lcEnergy, inputMask), AcceptedPositions(shares, n, inputMask);
      if Accepted(shares[n - 1], inputMask) {
        assert m == m0 + [Multiplicity(Fraction(shares[n - 1], lcEnergy))] && p == p0 + [n - 1];
        forall j | 0 <= j < |m|
          ensures m[j] == Multiplicity(Fraction(shares[p[j]], lcEnergy))
        {
          if j < |m0| {
            assert m[j] == m0[j] && p[j] == p0[j];
          }
        }
      } else {
        assert m == m0 && p == p0;
      }
    }
  }

  /** A layer cluster is a vertex exactly when some share names it and passes
      the input mask. */
  lemma VertexMembership(shares: seq<Share>, inputMask: seq<real>, i: nat)
    requires MaskIndexed(shares, inputMask)
    ensures i in Vertices(shares, |shares|, inputMask) <==>
            exists k :: 0 <= k < |shares| && shares[k].layerCluster == i && Accepted(shares[k], inputMask)
  {
    var n := |shares|;
    var v, p := Vertices(shares, n, inputMask), AcceptedPositions(shares, n, inputMask);
    VerticesAtPositions(shares, n, inputMask);
    if i in v {
      var j :| 0 <= j < |v| && v[j] == i;
      assert shares[p[j]].layerCluster == i && Accepted(shares[p[j]], inputMask);
    }
    if k :| 0 <= k < n && shares[k].layerCluster == i && Accepted(shares[k], inputMask) {
      assert k in p;
      var j :| 0 <= j < |p| && p[j] == k;
      assert v[j] == i;
    }
  }

  /** Everything the producer promises about one trackster: parallel vertex and
      multiplicity vectors, vertices that passed the input mask, multiplicities
      within an unsigned byte, the simulated cluster as seed, and probability
      one on the simulated particle's type and zero elsewhere. */
  lemma TracksterShape(entry: SimToReco, simClusters: seq<SimCluster>, lcEnergy: seq<real>, inputMask: seq<real>)
    requires entry.simCluster < |simClusters| && ValidShares(entry.shares, lcEnergy, inputMask)
    ensures var t := BuildTrackster(entry, simClusters, lcEnergy, inputMask);
            && |t.vertices| == |t.vertexMultiplicity|
            && (forall j :: 0 <= j < |t.vertices| ==>
                  t.vertices[j] < |lcEnergy| && t.vertices[j] < |inputMask| && inputMask[t.vertices[j]] > 0.0)
            && (forall j :: 0 <= j < |t.vertexMultiplicity| ==> 0 <= t.vertexMultiplicity[j] <= 255)
            && t.seedIndex == entry.simCluster
            && |t.idProbabilities| == NumTypes
            && var sc := simClusters[entry.simCluster];
               forall u :: t.idProbabilities[Ordinal(u)]
                           == (if u == TypeFromPdgId(sc.pdgId, sc.charge) then 1.0 else 0.0)
  {
    var n := |entry.shares|;
    VerticesAtPositions(entry.shares, n, inputMask);
    MultiplicitiesAtPositions(entry.shares, n, lcEnergy, inputMask);
  }

  // ---------------------------------------------------------------------------
  // The output mask.

  /** Reference definition: the total fraction of layer cluster i claimed by
      the accepted shares among the first n. */
  function ShareTotal(shares: seq<Share>, n: nat, i: nat, lcEnergy: seq<real>, inputMask: seq<real>): real
    requires n <= |shares| && ValidShares(shares, lcEnergy, inputMask)
  {
    if n == 0 then 0.0
    else
      var sh := shares[n - 1];
      ShareTotal(shares, n - 1, i, lcEnergy, inputMask)
      + (if sh.layerCluster == i && Accepted(sh, inputMask) then Fraction(sh, lcEnergy) else 0.0)
  }

  /** Reference definition: the total fraction of layer cluster i claimed by
      the first n association entries. */
  function EntriesTotal(assoc: seq<SimToReco>, n: nat, i: nat, lcEnergy: seq<real>, inputMask: seq<real>): real
    requires n <= |assoc| && ValidEntries(assoc, lcEnergy, inputMask)
  {
    if n == 0 then 0.0
    else
      var shares := assoc[n - 1].shares;
      EntriesTotal(assoc, n - 1, i, lcEnergy, inputMask) + ShareTotal(shares, |shares|, i, lcEnergy, inputMask)
  }

  /** Applying shares in place lowers each entry by the total fraction claimed
      for it and by nothing else. */
  lemma {:induction false} ApplySharesAt(mask: seq<real>, shares: seq<Share>, n: nat,
                                         lcEnergy: seq<real>, inputMask: seq<real>, i: nat)
    requires |mask| == |lcEnergy| && n <= |shares| && ValidShares(shares, lcEnergy, inputMask) && i < |mask|
    ensures ApplyShares(mask, shares, n, lcEnergy, inputMask)[i] == mask[i] - ShareTotal(shares, n, i, lcEnergy, inputMask)
  {
    if n > 0 {
      ApplySharesAt(mask, shares, n - 1, lcEnergy, inputMask, i);
    }
  }

  lemma {:induction false} ApplyEntriesAt(mask: seq<real>, assoc: seq<SimToReco>, n: nat,
                                          lcEnergy: seq<real>, inputMask: seq<real>, i: nat)
    requires |mask| == |lcEnergy| && n <= |assoc| && ValidEntries(assoc, lcEnergy, inputMask) && i < |mask|
    ensures ApplyEntries(mask, assoc, n, lcEnergy, inputMask)[i] == mask[i] - EntriesTotal(assoc, n, i, lcEnergy, inputMask)
  {
    if n > 0 {
      ApplyEntriesAt(mask, assoc, n - 1, lcEnergy, inputMask, i);
      var shares := assoc[n - 1].shares;
      ApplySharesAt(ApplyEntries(mask, assoc, n - 1, lcEnergy, inputMask), shares, |shares|, lcEnergy, inputMask, i);
    }
  }

  /** The output mask has one entry per layer cluster, and entry i is one minus
      the total fraction of layer cluster i claimed by all simulated clusters. */
  lemma OutputMaskAt(assoc: seq<SimToReco>, lcEnergy: seq<real>, inputMask: seq<real>, i: nat)
    requires ValidEntries(assoc, lcEnergy, inputMask) && i < |lcEnergy|
    ensures |OutputMask(assoc, lcEnergy, inputMask)| == |lcEnergy|
    ensures OutputMask(assoc, lcEnergy, inputMask)[i] == 1.0 - EntriesTotal(assoc, |assoc|, i, lcEnergy, inputMask)
  {
    ApplyEntriesAt(Ones(|lcEnergy|), assoc, |assoc|, lcEnergy, inputMask, i);
  }

  lemma {:induction false} ShareTotalOffVertices(shares: seq<Share>, n: nat, i: nat, lcEnergy: seq<real>, inputMask: seq<real>)
    requires n <= |shares| && ValidShares(shares, lcEnergy, inputMask)
    requires i !in Vertices(shares, n, inputMask)
    ensures ShareTotal(shares, n, i, lcEnergy, inputMask) == 0.0
  {
    if n > 0 {
      ShareTotalOffVertices(shares, n - 1, i, lcEnergy, inputMask);
    }
  }

  lemma {:induction false} EntriesTotalOffVertices(assoc: seq<SimToReco>, n: nat, i: nat, lcEnergy: seq<real>, inputMask: seq<real>)
    requires n <= |assoc| && ValidEntries(assoc, lcEnergy, inputMask)
    requires forall k :: 0 <= k < n ==> i !in Vertices(assoc[k].shares, |assoc[k].shares|, inputMask)
    ensures EntriesTotal(assoc, n, i, lcEnergy, inputMask) == 0.0
  {
    if n > 0 {
      EntriesTotalOffVertices(assoc, n - 1, i, lcEnergy, inputMask);
      var shares := assoc[n - 1].shares;
      ShareTotalOffVertices(shares, |shares|, i, lcEnergy, inputMask);
    }
  }

  /** A layer cluster that no trackster took as a vertex keeps mask value one. */
  lemma OutputMaskUntouched(assoc: seq<SimToReco>, lcEnergy: seq<real>, inputMask: seq<real>, i: nat)
    requires ValidEntries(assoc, lcEnergy, inputMask) && i < |lcEnergy|
    requires forall k :: 0 <= k < |assoc| ==> i !in Vertices(assoc[k].shares, |assoc[k].shares|, inputMask)
    ensures OutputMask(assoc, lcEnergy, inputMask)[i] == 1.0
  {
    OutputMaskAt(assoc, lcEnergy, inputMask, i);
    EntriesTotalOffVertices(assoc, |assoc|, i, lcEnergy, inputMask);
  }

  /** Shared energies are non-negative and layer-cluster energies positive. */
  predicate PhysicalEnergies(assoc: seq<SimToReco>, lcEnergy: seq<real>)
  {
    (forall i :: 0 <= i < |lcEnergy| ==> lcEnergy[i] > 0.0)
    && forall k, j :: 0 <= k < |assoc| && 0 <= j < |assoc[k].shares| ==> assoc[k].shares[j].sharedEnergy >= 0.0
  }

  lemma {:induction false} ShareTotalNonNegative(assoc: seq<SimToReco>, k: nat, n: nat, i: nat,
                                                 lcEnergy: seq<real>, inputMask: seq<real>)
    requires k < |assoc| && n <= |assoc[k].shares|
    requires ValidEntries(assoc, lcEnergy, inputMask) && PhysicalEnergies(assoc, lcEnergy)
    ensures ShareTotal(assoc[k].shares, n, i, lcEnergy, inputMask) >= 0.0
  {
    if n > 0 {
      ShareTotalNonNegative(assoc, k, n - 1, i, lcEnergy, inputMask);
    }
  }

  lemma {:induction false} EntriesTotalNonNegative(assoc: seq<SimToReco>, n: nat, i: nat,
                                                   lcEnergy: seq<real>, inputMask: seq<real>)
    requires n <= |assoc| && ValidEntries(assoc, lcEnergy, inputMask) && PhysicalEnergies(assoc, lcEnergy)
    ensures EntriesTotal(assoc, n, i, lcEnergy, inputMask) >= 0.0
  {
    if n > 0 {
      EntriesTotalNonNegative(assoc, n - 1, i, lcEnergy, inputMask);
      ShareTotalNonNegative(assoc, n - 1, |assoc[n - 1].shares|, i, lcEnergy, inputMask);
    }
  }

  /** With physical energies the mask only ever goes down from one. */
  lemma OutputMaskAtMostOne(assoc: seq<SimToReco>, lcEnergy: seq<real>, inputMask: seq<real>, i: nat)
    requires ValidEntries(assoc, lcEnergy, inputMask) && PhysicalEnergies(assoc, lcEnergy) && i < |lcEnergy|
    ensures OutputMask(assoc, lcEnergy, inputMask)[i] <= 1.0
  {
    OutputMaskAt(assoc, lcEnergy, inputMask, i);
    EntriesTotalNonNegative(assoc, |assoc|, i, lcEnergy, inputMask);
  }
}
