/** Particle types a trackster can be labelled with, and the classification of a
    simulated particle by its PDG Monte Carlo code and its charge. */
module ParticleTypes {

  /** The particle types the classifier can produce. */
  datatype ParticleType =
    | Photon
    | Electron
    | Muon
    | NeutralPion
    | ChargedHadron
    | NeutralHadron
    | Unknown

  /** Number of entries of a trackster's identification-probability vector. */
  const NumTypes: nat := 7

  /** Position of a type in the identification-probability vector. */
  function Ordinal(t: ParticleType): (i: nat)
    ensures i < NumTypes
  {
    match t
    case Photon => 0
    case Electron => 1
    case Muon => 2
    case NeutralPion => 3
    case ChargedHadron => 4
    case NeutralHadron => 5
    case Unknown => 6
  }

  /** Distinct types occupy distinct slots of the probability vector. */
  lemma OrdinalInjective(t: ParticleType, u: ParticleType)
    ensures Ordinal(t) == Ordinal(u) <==> t == u
  {
  }

  function Abs(x: int): (a: nat)
    ensures a == x || a == -x
  {
    if x < 0 then -x else x
  }

  /** The two open bands of absolute PDG codes that count as hadrons:
      mesons strictly between 100 and 900, baryons strictly between 1000 and 9000. */
  predicate IsHadronCode(a: int)
  {
    (a > 100 && a < 900) || (a > 1000 && a < 9000)
  }

  /** Classifies a simulated particle. Only the signed code +111 is a neutral pion;
      every other code is classified by its absolute value. The ensures clauses
      characterise each possible result exactly. */
  function TypeFromPdgId(pdgId: int, charge: int): (t: ParticleType)
    ensures t == NeutralPion <==> pdgId == 111
    ensures t == Photon <==> pdgId == 22 || pdgId == -22
    ensures t == Electron <==> pdgId == 11 || pdgId == -11
    ensures t == Muon <==> pdgId == 13 || pdgId == -13
    ensures t == ChargedHadron <==> pdgId != 111 && IsHadronCode(Abs(pdgId)) && charge != 0
    ensures t == NeutralHadron <==> pdgId != 111 && IsHadronCode(Abs(pdgId)) && charge == 0
    ensures t == Unknown <==>
              pdgId != 111 && Abs(pdgId) != 22 && Abs(pdgId) != 11 && Abs(pdgId) != 13
              && !IsHadronCode(Abs(pdgId))
  {
    if pdgId == 111 then
      NeutralPion
    else
      var a := Abs(pdgId);
      if a == 22 then Photon
      else if a == 11 then Electron
      else if a == 13 then Muon
      else if IsHadronCode(a) then
        (if charge != 0 then ChargedHadron else NeutralHadron)
      else Unknown
  }

  /** Apart from +111, only the absolute value of the code matters. */
  lemma DependsOnlyOnAbs(p: int, q: int, charge: int)
    requires p != 111 && q != 111 && Abs(p) == Abs(q)
    ensures TypeFromPdgId(p, charge) == TypeFromPdgId(q, charge)
  {
  }

  /** The charge only matters for hadrons; every other result ignores it. */
  lemma ChargeOnlySplitsHadrons(pdgId: int, c1: int, c2: int)
    requires TypeFromPdgId(pdgId, c1) !in {ChargedHadron, NeutralHadron}
    ensures TypeFromPdgId(pdgId, c2) == TypeFromPdgId(pdgId, c1)
  {
  }

  /** The anti-code -111 is not a neutral pion: its absolute value lies in the
      meson band, so it is labelled a hadron according to its charge. */
  lemma MinusNeutralPionIsHadron(charge: int)
    ensures TypeFromPdgId(-111, charge) == (if charge != 0 then ChargedHadron else NeutralHadron)
  {
  }

  /** The hadron bands are open: their end points, and codes such as 0, 12 or
      10000, are unknown whatever the sign and the charge. */
  lemma BandEndsAreUnknown(pdgId: int, charge: int)
    requires Abs(pdgId) in {0, 12, 100, 900, 1000, 9000, 10000}
    ensures TypeFromPdgId(pdgId, charge) == Unknown
  {
  }
}
