/**
 * ana/src/AnalysisRdfDefinitions.cc: the per-event columns the analysis defines on a
 * dataframe, each as a function of the row's inputs and the sample's exposure record.
 */
module AnalysisRdfDefinitions {
  import opened Outcomes
  import opened Floats
  import opened AnalysisProcessor

  // ---------------------------------------------------------------------------------------
  // Volumes (AnalysisRdfDefinitions.cc:20-54).

  const MinX: real := 5.0
  const MaxX: real := 251.0
  const MinY: real := -110.0
  const MaxY: real := 110.0
  const MinZ: real := 20.0
  const MaxZ: real := 986.0
  const RecoGapMinZ: real := 675.0
  const RecoGapMaxZ: real := 775.0

  predicate IsWithin(v: real, low: real, high: real) {
    v > low && v < high
  }

  predicate InActiveVolume(x: real, y: real, z: real) {
    IsWithin(x, MinX, MaxX) && IsWithin(y, MinY, MaxY) && IsWithin(z, MinZ, MaxZ)
  }

  /** IsInTruthVolume: the open box of the active volume. */
  predicate InTruthVolume(x: real, y: real, z: real) {
    InActiveVolume(x, y, z)
  }

  /** IsInRecoVolume: the active volume without the gap in z. */
  predicate InRecoVolume(x: real, y: real, z: real) {
    InActiveVolume(x, y, z) && (z < RecoGapMinZ || z > RecoGapMaxZ)
  }

  /** The reconstruction volume is the truth volume minus the slab 675 <= z <= 775. */
  lemma RecoVolumeIsTruthMinusGap(x: real, y: real, z: real)
    ensures InRecoVolume(x, y, z) <==> InTruthVolume(x, y, z) && !(RecoGapMinZ <= z <= RecoGapMaxZ)
    ensures InRecoVolume(x, y, z) ==> InTruthVolume(x, y, z)
    ensures InTruthVolume(x, y, z) <==> 5.0 < x < 251.0 && -110.0 < y < 110.0 && 20.0 < z < 986.0
  {
  }

  // ---------------------------------------------------------------------------------------
  // Weights (AnalysisRdfDefinitions.cc:77-108).

  /** The w_base column: the sample's exposure scale factor. */
  function WBase(rec: ProcessorEntry): (w: real)
    ensures w > 0.0
    ensures rec.source == MC && rec.potNom > 0.0 && rec.potEqv > 0.0 ==> w * rec.potEqv == rec.potNom
    ensures rec.source == Ext && rec.trigNom > 0.0 && rec.trigEqv > 0.0 ==> w * rec.trigEqv == rec.trigNom
    ensures (!(rec.source == MC && rec.potNom > 0.0 && rec.potEqv > 0.0)
             && !(rec.source == Ext && rec.trigNom > 0.0 && rec.trigEqv > 0.0)) ==> w == 1.0
  {
    var isMc := rec.source == MC;
    var isExt := rec.source == Ext;
    var scaleMc := if isMc && rec.potNom > 0.0 && rec.potEqv > 0.0 then rec.potNom / rec.potEqv else 1.0;
    var scaleExt := if isExt && rec.trigNom > 0.0 && rec.trigEqv > 0.0 then rec.trigNom / rec.trigEqv else 1.0;
    if isMc then scaleMc else if isExt then scaleExt else 1.0
  }

  /**
   * The w_nominal column: for MC the product of w_base and the two generator weights, clamped
   * to 0 when it is negative or not finite; for other samples w_base itself.
   */
  function WNominal(source: Source, w: real, weightSpline: Float, weightTune: Float): (r: real)
    ensures source != MC ==> r == w
    ensures source == MC ==> r >= 0.0
    ensures source == MC ==>
      var p := Mul(Mul(Num(w), weightSpline), weightTune);
      r == (if p.Num? && p.v >= 0.0 then p.v else 0.0)
  {
    if source == MC then
      var out := Mul(Mul(Num(w), weightSpline), weightTune);
      if !IsFinite(out) then 0.0
      else if out.v < 0.0 then 0.0
      else out.v
    else w
  }

  /** MC weights are never negative when w_base is positive and the weights are finite. */
  lemma WNominalOfGoodWeights(source: Source, w: real, s: real, t: real)
    requires source == MC && w > 0.0 && s >= 0.0 && t >= 0.0
    ensures WNominal(source, w, Num(s), Num(t)) == w * s * t
  {
    assert w * s >= 0.0;
    assert w * s * t >= 0.0;
  }

  // ---------------------------------------------------------------------------------------
  // Training and template split (AnalysisRdfDefinitions.cc:110-161).

  const TrainingFraction: real := 0.10
  const TrainingIncludeExt := true

  /** MC samples, and EXT samples when they are included, take part in the split. */
  predicate Trainable(source: Source) {
    source == MC || (source == Ext && TrainingIncludeExt)
  }

  /** The columns of a row that the split reads, each absent unless the input already had it. */
  datatype SplitInputs = SplitInputs(
    mlU: Option<real>, isTraining: Option<bool>, isTemplate: Option<bool>, wTemplate: Option<real>)

  /** The values of the split columns once defined. */
  datatype SplitColumns = SplitColumns(mlU: real, isTraining: bool, isTemplate: bool, wTemplate: real)

  /** The value the is_training column gets when it is defined here. */
  function TrainingFlag(source: Source, haveMlU: bool, u: real): (t: bool)
    ensures t <==> Trainable(source) && haveMlU && u < TrainingFraction
  {
    if !Trainable(source) || !haveMlU then false else u < TrainingFraction
  }

  /** The value the w_template column gets when it is defined here. */
  function TemplateWeight(source: Source, haveMlU: bool, w: real, t: bool): (r: real)
    ensures !Trainable(source) || !haveMlU ==> r == w
    ensures Trainable(source) && haveMlU && t ==> r == 0.0
    ensures Trainable(source) && haveMlU && !t ==> r * (1.0 - TrainingFraction) == w
  {
    if !Trainable(source) || !haveMlU then w
    else if t then 0.0
    else
      var keep := 1.0 - TrainingFraction;
      if keep <= 0.0 then 0.0 else w / keep
  }

  /**
   * The split columns of a row: ml_u defaults to 0, and each of is_training, is_template and
   * w_template is defined only when the input does not already have it.
   */
  function Split(source: Source, row: SplitInputs, wNominal: real): (c: SplitColumns)
    ensures c.mlU == (if row.mlU.Some? then row.mlU.value else 0.0)
    ensures row.isTraining.None? ==> (c.isTraining <==> Trainable(source) && row.mlU.Some? && row.mlU.value < TrainingFraction)
    ensures row.isTraining.Some? ==> c.isTraining == row.isTraining.value
    ensures row.isTemplate.None? ==> (c.isTemplate <==> !Trainable(source) || !c.isTraining)
    ensures row.wTemplate.None? ==> c.wTemplate == TemplateWeight(source, row.mlU.Some?, wNominal, c.isTraining)
    ensures row.isTemplate.Some? ==> c.isTemplate == row.isTemplate.value
    ensures row.wTemplate.Some? ==> c.wTemplate == row.wTemplate.value
  {
    var haveMlU := row.mlU.Some?;
    var u := if haveMlU then row.mlU.value else 0.0;
    var t := if row.isTraining.Some? then row.isTraining.value else TrainingFlag(source, haveMlU, u);
    var tmpl := if row.isTemplate.Some? then row.isTemplate.value else !Trainable(source) || !t;
    var wt := if row.wTemplate.Some? then row.wTemplate.value else TemplateWeight(source, haveMlU, wNominal, t);
    SplitColumns(u, t, tmpl, wt)
  }

  /**
   * On a fresh trainable row with ml_u, the row is a template row exactly when it is not a
   * training row; training rows weigh nothing and template rows are scaled up by 1/0.9.
   */
  lemma SplitOfFreshRow(source: Source, u: real, w: real)
    requires Trainable(source)
    ensures var c := Split(source, SplitInputs(Some(u), None, None, None), w);
      && (c.isTraining <==> u < 0.10)
      && (c.isTemplate <==> !c.isTraining)
      && (c.isTraining ==> c.wTemplate == 0.0)
      && (!c.isTraining ==> c.wTemplate * 0.9 == w)
  {
  }

  /** A sample outside the split keeps every row as a template row with its nominal weight. */
  lemma SplitOfUntrainable(source: Source, row: SplitInputs, w: real)
    requires !Trainable(source) && row.isTraining.None? && row.isTemplate.None? && row.wTemplate.None?
    ensures Split(source, row, w) == SplitColumns(Split(source, row, w).mlU, false, true, w)
  {
  }

  // ---------------------------------------------------------------------------------------
  // Truth columns of MC samples (AnalysisRdfDefinitions.cc:163-231).

  /** The count_strange column: kaons, lambdas and sigmas. */
  function CountStrange(kPlus: int, kMinus: int, k0: int, lambda: int, sigPlus: int, sig0: int, sigMinus: int): int {
    kPlus + kMinus + k0 + lambda + sigPlus + sig0 + sigMinus
  }

  predicate IsStrange(countStrange: int) {
    countStrange > 0
  }

  /** The scattering_mode column: the GENIE modes 0, 1, 2, 3 and 10 are kept, all others are -1. */
  function ScatteringMode(mode: int): (m: int)
    ensures mode in {0, 1, 2, 3, 10} ==> m == mode
    ensures mode !in {0, 1, 2, 3, 10} ==> m == -1
  {
    if mode == 0 then 0
    else if mode == 1 then 1
    else if mode == 2 then 2
    else if mode == 3 then 3
    else if mode == 10 then 10
    else -1
  }

  /** Mapping a mode twice maps it once. */
  lemma ScatteringModeIdempotent(mode: int)
    ensures ScatteringMode(ScatteringMode(mode)) == ScatteringMode(mode)
  {
  }

  predicate IsCC(interaction: int) { interaction == 0 }
  predicate IsNC(interaction: int) { interaction != 0 }
  predicate IsCCNu(interaction: int, parent: int) { interaction == 0 && parent == 0 }
  predicate IsCCNuBar(interaction: int, parent: int) { interaction == 0 && parent != 0 }

  /** NC is the complement of CC, and CC splits into neutrino and antineutrino by the mother code. */
  lemma InteractionFlagsPartition(interaction: int, parent: int)
    ensures IsNC(interaction) <==> !IsCC(interaction)
    ensures IsCC(interaction) <==> IsCCNu(interaction, parent) || IsCCNuBar(interaction, parent)
    ensures !(IsCCNu(interaction, parent) && IsCCNuBar(interaction, parent))
  {
  }

  const RecognisedPurityMin: real := 0.5
  const RecognisedCompletenessMin: real := 0.1

  /**
   * The analysis_channels column. For non-MC samples it is DataInclusive; for MC it is
   * decided by the interaction, the true vertex, the slice quality and the final-state counts
   * (the other inputs of the lambda do not affect the result). The pion count here includes pi0.
   */
  function RdfChannel(isMc: bool, interaction: int, x: real, y: real, z: real,
                      nPi0: int, nPiPlus: int, nPiMinus: int, nPhoton: int, nMuon: int, nElectron: int,
                      purity: real, completeness: real): (c: Channel)
    ensures !isMc ==> c == DataInclusive
    ensures isMc && interaction != 0 ==> c == NC
    ensures isMc && interaction == 0 && !InTruthVolume(x, y, z) ==> c == OutFV
    ensures isMc && interaction == 0 && InTruthVolume(x, y, z) ==>
      (c == External <==> purity < RecognisedPurityMin || completeness < RecognisedCompletenessMin)
    ensures c == ECCC ==> nMuon <= 0 && nElectron > 0
    ensures c in {MuCC0piGe1p, MuCC1pi, MuCCNpi, MuCCPi0OrGamma, MuCCOther} ==> nMuon > 0
  {
    if !isMc then DataInclusive
    else if interaction != 0 then NC
    else if !InTruthVolume(x, y, z) then OutFV
    else if purity < RecognisedPurityMin || completeness < RecognisedCompletenessMin then External
    else
      var nPi := nPiPlus + nPiMinus + nPi0;
      if nMuon > 0 then
        if nPi == 0 then MuCC0piGe1p
        else if nPi == 1 then MuCC1pi
        else if nPi > 1 then MuCCNpi
        else if nPi0 > 0 || nPhoton > 0 then MuCCPi0OrGamma
        else MuCCOther
      else if nElectron > 0 then ECCC
      else if nPi == 0 then CCS1
      else if nPi > 1 then CCSgt1
      else DataInclusive
  }

  /**
   * With a muon and non-negative pion counts only three muon channels can result: the pi0 /
   * gamma and "other" channels are reached only by a negative pion count.
   */
  lemma MuonChannelsOfCounts(x: real, y: real, z: real, nPi0: int, nPiPlus: int, nPiMinus: int,
                             nPhoton: int, nMuon: int, nElectron: int, purity: real, completeness: real)
    requires nMuon > 0 && nPi0 >= 0 && nPiPlus >= 0 && nPiMinus >= 0
    requires InTruthVolume(x, y, z) && purity >= RecognisedPurityMin && completeness >= RecognisedCompletenessMin
    ensures var c := RdfChannel(true, 0, x, y, z, nPi0, nPiPlus, nPiMinus, nPhoton, nMuon, nElectron, purity, completeness);
      c in {MuCC0piGe1p, MuCC1pi, MuCCNpi}
      && (c == MuCC0piGe1p <==> nPi0 + nPiPlus + nPiMinus == 0)
      && (c == MuCC1pi <==> nPi0 + nPiPlus + nPiMinus == 1)
  {
  }
}
