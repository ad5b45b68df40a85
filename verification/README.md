# Tracksters from simulated clusters

This project models the producer that builds "simulated tracksters" for the
HGCAL calorimeter reconstruction (TICL) from the simulated truth clusters.
A trackster is a 3-D grouping of 2-D layer clusters that approximates one
particle shower.

The producer is given two inputs:

- the simulated-to-reconstructed association, which for each simulated
  cluster lists the layer clusters it shares energy with and how much energy;
- an input mask over the layer clusters.

It emits one trackster per association entry:

- the trackster's vertices are the associated layer clusters that pass the
  mask;
- each vertex gets a multiplicity, the reciprocal of the energy fraction the
  simulated cluster claims from it, clamped to an unsigned byte;
- the trackster carries identification probability one on the type of the
  simulated particle;
- its seed is the simulated cluster.

The producer also emits an output mask. It starts at one for every layer
cluster, and each accepted vertex lowers its entry by the claimed fraction.
The type of the simulated particle comes from its PDG Monte Carlo code and its
charge.

Files:

- `particle_type.dfy` (module `ParticleTypes`): the particle-type enumeration
  and the pure classifier, with its exact per-type characterisation and
  lemmas.
- `trackster_producer.dfy` (module `TrackstersFromSimClusters`): the input
  and output records, the specification functions (`Vertices`,
  `Multiplicities`, `AcceptedPositions`, `BuildTrackster`, `Tracksters`,
  `ApplyShares`, `ApplyEntries`, `OutputMask`), and the imperative producer.
  `Produce` is the outer loop over association entries. It allocates the
  output mask as an array of ones and updates it in place. `MakeTrackster`
  is the loop body, with its inner loop over the shares.
- `trackster_properties.dfy` (module `TracksterProperties`): lemmas on the
  specification functions. They cover parallel vectors, order preservation,
  the multiplicity bound, the probability vector, and a per-layer-cluster
  closed form of the output mask checked against an independent reference
  sum.

Energies, fractions and masks are `real`s. Indices are `nat`s.

## Model

| member | source | states |
|---|---|---|
| ParticleTypes.TypeFromPdgId | RecoHGCal/TICL/plugins/TrackstersFromSimClustersProducer.cc:32-56 | exact characterisation of each result: neutral pion iff the code is +111; photon, electron, muon iff the code is ±22, ±11, ±13; charged (neutral) hadron iff the code is not +111, its absolute value is strictly inside 100..900 or 1000..9000, and the charge is nonzero (zero); unknown otherwise |
| ParticleTypes.DependsOnlyOnAbs | RecoHGCal/TICL/plugins/TrackstersFromSimClustersProducer.cc:35-53 | for any two codes other than +111 with the same absolute value, the type is the same |
| ParticleTypes.ChargeOnlySplitsHadrons | RecoHGCal/TICL/plugins/TrackstersFromSimClustersProducer.cc:44-52 | the charge changes the result only between charged and neutral hadron |
| ParticleTypes.MinusNeutralPionIsHadron | RecoHGCal/TICL/plugins/TrackstersFromSimClustersProducer.cc:33-50 | code −111 is not a neutral pion; it is a charged hadron for nonzero charge and a neutral hadron for zero charge |
| ParticleTypes.BandEndsAreUnknown | RecoHGCal/TICL/plugins/TrackstersFromSimClustersProducer.cc:44-53 | the band bounds 100, 900, 1000 and 9000 are excluded, and they, 0, 12 and 10000 are unknown with either sign and any charge |
| TrackstersFromSimClusters.Multiplicity | RecoHGCal/TICL/plugins/TrackstersFromSimClustersProducer.cc:140 | the multiplicity lies in 0..255; a negative fraction gives 0; a zero fraction (infinite reciprocal) gives 255; for a positive fraction it is the whole part of the reciprocal, capped at 255 |
| TrackstersFromSimClusters.Fraction | RecoHGCal/TICL/plugins/TrackstersFromSimClustersProducer.cc:138 | the fraction of a layer cluster that one share claims: multiplied by the layer cluster's energy it gives back the shared energy |
| TrackstersFromSimClusters.Vertices | RecoHGCal/TICL/plugins/TrackstersFromSimClustersProducer.cc:135-137 | the layer clusters, in association order, of the first n shares that pass the mask; at most n of them, each in range and with positive input mask. `TracksterProperties.VerticesAtPositions` and `VertexMembership` characterise them exactly |
| TrackstersFromSimClusters.Multiplicities | RecoHGCal/TICL/plugins/TrackstersFromSimClustersProducer.cc:135-140 | one multiplicity per vertex, each in 0..255. `TracksterProperties.MultiplicitiesAtPositions` ties the j-th to the share at the j-th accepted position |
| TrackstersFromSimClusters.BuildTrackster | RecoHGCal/TICL/plugins/TrackstersFromSimClustersProducer.cc:128-145 | the trackster of one association entry: vertex and multiplicity vectors of equal length, one probability slot per type, seeded by the simulated cluster. `TracksterProperties.TracksterShape` states the rest of its shape |
| TrackstersFromSimClusters.ApplyShares | RecoHGCal/TICL/plugins/TrackstersFromSimClustersProducer.cc:135-139 | the mask after one entry's first n shares, with the same length as before. `TracksterProperties.ApplySharesAt` gives each entry in closed form |
| TrackstersFromSimClusters.ApplyEntries | RecoHGCal/TICL/plugins/TrackstersFromSimClustersProducer.cc:127-142 | the mask after the first n association entries, with the same length as before. `TracksterProperties.ApplyEntriesAt` gives each entry in closed form |
| TrackstersFromSimClusters.OutputMask | RecoHGCal/TICL/plugins/TrackstersFromSimClustersProducer.cc:118-142 | the emitted mask: one entry per layer cluster. `TracksterProperties.OutputMaskAt`, `OutputMaskUntouched` and `OutputMaskAtMostOne` characterise its values |
| TrackstersFromSimClusters.AcceptedPositions | RecoHGCal/TICL/plugins/TrackstersFromSimClustersProducer.cc:135-136 | the kept positions are strictly increasing, in range, and a position is kept iff its layer cluster's input mask is positive |
| TrackstersFromSimClusters.TypeProbabilities | RecoHGCal/TICL/plugins/TrackstersFromSimClustersProducer.cc:143 | one probability per type: one on the given type and zero on every other |
| TrackstersFromSimClusters.ZeroProbabilities | RecoHGCal/TICL/plugins/TrackstersFromSimClustersProducer.cc:131 | every probability is zero |
| TrackstersFromSimClusters.OneHotProbabilities | RecoHGCal/TICL/plugins/TrackstersFromSimClustersProducer.cc:131-143 | zeroing the probabilities and then setting one type's to one gives the one-hot probabilities of that type |
| TrackstersFromSimClusters.Tracksters | RecoHGCal/TICL/plugins/TrackstersFromSimClustersProducer.cc:127-146 | the first n entries yield exactly n tracksters, the k-th built from the k-th entry |
| TrackstersFromSimClusters.Ones | RecoHGCal/TICL/plugins/TrackstersFromSimClustersProducer.cc:118 | the mask starts with one entry per layer cluster, each equal to one |
| TrackstersFromSimClusters.MakeTrackster | RecoHGCal/TICL/plugins/TrackstersFromSimClustersProducer.cc:128-145 | the trackster returned is the one specified for the entry, and the mask array becomes the old mask with that entry's accepted shares subtracted |
| TrackstersFromSimClusters.Produce | RecoHGCal/TICL/plugins/TrackstersFromSimClustersProducer.cc:113-146 | one trackster per association entry, in association order, each equal to the one specified for its entry; the output mask equals the specified mask |
| TracksterProperties.VerticesAtPositions | RecoHGCal/TICL/plugins/TrackstersFromSimClustersProducer.cc:135-137 | the vertices are exactly the layer clusters at the accepted positions, in association order |
| TracksterProperties.MultiplicitiesAtPositions | RecoHGCal/TICL/plugins/TrackstersFromSimClustersProducer.cc:135-140 | the multiplicities run parallel to the vertices, the j-th coming from the share at the j-th accepted position |
| TracksterProperties.VertexMembership | RecoHGCal/TICL/plugins/TrackstersFromSimClustersProducer.cc:135-137 | a layer cluster is a vertex iff some associated share names it and its input mask is positive |
| TracksterProperties.TracksterShape | RecoHGCal/TICL/plugins/TrackstersFromSimClustersProducer.cc:130-144 | vertices and multiplicities have equal length; every vertex is in range and passed the mask; every multiplicity is in 0..255; the seed is the simulated cluster; the probability is one on the classified type and zero elsewhere |
| TracksterProperties.ApplySharesAt | RecoHGCal/TICL/plugins/TrackstersFromSimClustersProducer.cc:135-139 | after one entry's shares, each mask entry is lowered by exactly the total fraction claimed for that layer cluster |
| TracksterProperties.ApplyEntriesAt | RecoHGCal/TICL/plugins/TrackstersFromSimClustersProducer.cc:127-142 | after n entries, each mask entry is lowered by exactly the total fraction those entries claim for it |
| TracksterProperties.OutputMaskAt | RecoHGCal/TICL/plugins/TrackstersFromSimClustersProducer.cc:118-142 | the output mask has one entry per layer cluster; entry i is one minus the total fraction of layer cluster i that all entries claim |
| TracksterProperties.ShareTotalOffVertices | RecoHGCal/TICL/plugins/TrackstersFromSimClustersProducer.cc:136-139 | a layer cluster that is not a vertex of an entry receives no fraction from it |
| TracksterProperties.OutputMaskUntouched | RecoHGCal/TICL/plugins/TrackstersFromSimClustersProducer.cc:118-139 | a layer cluster that no trackster takes as a vertex keeps mask value one |
| TracksterProperties.OutputMaskAtMostOne | RecoHGCal/TICL/plugins/TrackstersFromSimClustersProducer.cc:118-139 | with non-negative shared energies and positive layer-cluster energies, no mask entry exceeds one |

## Left out

- Framework input and output are not modelled. This covers reading the
  collections from the event and the geometry from the event setup
  (lines 115-117 and 120-123), storing the results (149-150), module registration (81),
  the constructor's token registration (83-97) and `fillDescriptions`
  (99-110). The collections become parameters and the results become return
  values.
- `ticl::assignPCAtoTracksters` and the `RecHitTools` geometry lookups
  (lines 124 and 147-148) are not modelled. Their code (`TrackstersPCA`,
  `RecHitTools`) is not part of this model, and they do floating-point
  geometry. For the same reason the layer-cluster times, which only that call
  reads, are not modelled.
- The `reserve` calls (lines 126, 132-133) are not modelled: they only set
  capacity.
- Floating-point arithmetic is not modelled. Fractions, masks and the
  multiplicity's reciprocal are exact `real`s, so float rounding and the
  double-to-float narrowing of the mask update (line 139) are absent.
- A layer cluster of zero energy that passes the mask is excluded by
  `ValidShares`. In the source it would divide by zero and yield an infinite
  or NaN fraction.
- A signed zero fraction is not modelled. `Multiplicity` treats a zero
  fraction as positive zero (reciprocal +∞, clamped to 255), so the case of a
  negative zero shared energy (reciprocal −∞, giving 0) is absent.
- The cast of the clamped reciprocal to an unsigned byte is modelled as
  `Floor`. This matches truncation toward zero for values in 0..255.
- `ValidInput` is a precondition on the indices. It requires that every
  layer-cluster index in the association lies within both the layer
  clusters and the input mask, and that every simulated-cluster index lies
  within the simulated clusters. The source indexes without a check, and
  out-of-range access there is undefined.
- The seed's product identifier (`key.id()`, line 144) is not modelled, only
  the index. The model also takes the association's simulated-cluster
  reference as an index into the simulated clusters (line 129).
- The association score (`energyScorePair.second`) is carried in `Share` but
  never read, as in the source.
- `ParticleTypes.TypeFromPdgId` does not model the 32-bit width of the code.
  The code is an unbounded integer, so `std::abs` of the most negative 32-bit
  value (undefined in the source) does not arise.
- The charge is an integer parameter of the classifier. The conversion of
  the simulated cluster's charge to `int` at the call site (line 143) is not
  modelled.
- `DataFormats/HGCalReco/interface/Trackster.h` is not part of this model.
  The type enumeration has the seven values the classifier names. The
  source's enumeration has an eighth value, `ambiguous`, declared between
  neutral hadron and unknown, which the classifier never produces. The model's
  probability vector is therefore one slot shorter (7 instead of 8), and
  unknown sits in slot 6 instead of the source's slot 7. Slots are numbered
  in declaration order by `Ordinal`. The trackster's other fields (PCA
  results, time, regressed energy) are left out.
- `RecoHGCal/TICL/python/HADStep_cff.py` is configuration only and is not
  modelled.
- `SimG4Core/PhysicsLists/plugins/FTFPCMS_BERT_EMM.cc` registers Geant4
  physics constructors through foreign calls and is not modelled.
- `CondFormats/EcalObjects/src/EcalLaserAPDPNRatiosRefGPU.cc` does GPU
  allocation and copies and is not modelled.
- `Geometry/EcalCommonData/interface/EcalBarrelNumberingScheme.h` holds
  declarations without bodies and is not modelled.
