/**
 * ana/include/AnalysisChannels.hh: the truth-level channel classifier, its integer codes and
 * the signal definition.
 */
module AnalysisChannels {
  import opened Floats
  import opened AnalysisProcessor

  function Abs(x: int): nat {
    if x < 0 then -x else x
  }

  /** A muon-neutrino CC interaction in the fiducial volume without strange hadrons. */
  predicate MuonCC(inFiducial: bool, nuPdg: int, ccnc: int, countStrange: int) {
    inFiducial && ccnc == 0 && countStrange <= 0 && Abs(nuPdg) == 14
  }

  /**
   * classify_analysis_channel (AnalysisChannels.hh:35-82). Each result is characterised by the
   * inputs that produce it; the charged-pion count is pi- plus pi+, without pi0.
   */
  function Classify(inFiducial: bool, nuPdg: int, ccnc: int, countStrange: int, nP: int,
                    nPiMinus: int, nPiPlus: int, nPi0: int, nGamma: int): (c: Channel)
    ensures c == External <==> !inFiducial && nuPdg == 0
    ensures c == OutFV <==> !inFiducial && nuPdg != 0
    ensures c == NC <==> inFiducial && ccnc == 1
    ensures c == CCS1 <==> inFiducial && ccnc == 0 && countStrange == 1
    ensures c == CCSgt1 <==> inFiducial && ccnc == 0 && countStrange > 1
    ensures c == ECCC <==> inFiducial && ccnc == 0 && countStrange <= 0 && Abs(nuPdg) == 12
    ensures c == UnknownChannel <==>
      inFiducial && (ccnc !in {0, 1} || (ccnc == 0 && countStrange <= 0 && Abs(nuPdg) !in {12, 14}))
    ensures c in {MuCC0piGe1p, MuCC1pi, MuCCPi0OrGamma, MuCCNpi, MuCCOther} <==>
      MuonCC(inFiducial, nuPdg, ccnc, countStrange)
    ensures c != DataInclusive
    ensures MuonCC(inFiducial, nuPdg, ccnc, countStrange) ==>
      var npi := nPiMinus + nPiPlus;
      && (c == MuCC0piGe1p <==> npi == 0 && nP > 0)
      && (c == MuCC1pi <==> !(npi == 0 && nP > 0) && npi == 1 && nPi0 == 0)
      && (c == MuCCPi0OrGamma <==>
            !(npi == 0 && nP > 0) && !(npi == 1 && nPi0 == 0) && (nPi0 > 0 || nGamma >= 2))
      && (c == MuCCNpi <==>
            !(npi == 0 && nP > 0) && !(npi == 1 && nPi0 == 0) && !(nPi0 > 0 || nGamma >= 2) && npi > 1)
  {
    var npi := nPiMinus + nPiPlus;
    if !inFiducial then
      (if nuPdg == 0 then External else OutFV)
    else if ccnc == 1 then NC
    else if ccnc == 0 && countStrange > 0 then
      (if countStrange == 1 then CCS1 else CCSgt1)
    else if Abs(nuPdg) == 12 && ccnc == 0 then ECCC
    else if Abs(nuPdg) == 14 && ccnc == 0 then
      if npi == 0 && nP > 0 then MuCC0piGe1p
      else if npi == 1 && nPi0 == 0 then MuCC1pi
      else if nPi0 > 0 || nGamma >= 2 then MuCCPi0OrGamma
      else if npi > 1 then MuCCNpi
      else MuCCOther
    else UnknownChannel
  }

  /** Outside the fiducial volume only nu_pdg matters. */
  lemma OutsideVolumeIgnoresRest(nuPdg: int, ccnc: int, cs: int, nP: int, a: int, b: int, c: int, d: int,
                                 ccnc': int, cs': int, nP': int, a': int, b': int, c': int, d': int)
    ensures Classify(false, nuPdg, ccnc, cs, nP, a, b, c, d) == Classify(false, nuPdg, ccnc', cs', nP', a', b', c', d')
  {
  }

  /** to_int: the enumerator values of AnalysisChannel (AnalysisChannels.hh:18-33, 84-87). */
  function ToInt(c: Channel): (code: int)
    ensures c == UnknownChannel <==> code == 0
    ensures c == External <==> code == 1
    ensures c == OutFV <==> code == 2
    ensures c == DataInclusive <==> code == 99
    ensures c !in {UnknownChannel, External, OutFV, DataInclusive} ==> code == ProcessorCode(c)
  {
    match c
    case UnknownChannel => 0
    case External => 1
    case OutFV => 2
    case MuCC0piGe1p => 10
    case MuCC1pi => 11
    case MuCCPi0OrGamma => 12
    case MuCCNpi => 13
    case NC => 14
    case CCS1 => 15
    case CCSgt1 => 16
    case ECCC => 17
    case MuCCOther => 18
    case DataInclusive => 99
  }

  /** Distinct channels have distinct codes. */
  lemma ToIntInjective(a: Channel, b: Channel)
    ensures ToInt(a) == ToInt(b) ==> a == b
  {
  }

  const MinMuP: real := 0.10
  const MinPP: real := 0.30
  const MinPiP: real := 0.10
  const MinLamDecaySep: real := 0.50

  /** is_signal (AnalysisChannels.hh:89-115). */
  function IsSignal(isNuMuCC: bool, ccnc: int, inFiducial: bool, muP: Float, pP: Float, piP: Float,
                    lamDecaySep: Float): (r: bool)
    ensures r <==>
      && isNuMuCC && ccnc == 0 && inFiducial
      && IsFinite(muP) && IsFinite(pP) && IsFinite(piP) && IsFinite(lamDecaySep)
      && muP.v >= MinMuP && pP.v >= MinPP && piP.v >= MinPiP && lamDecaySep.v >= MinLamDecaySep
  {
    if !isNuMuCC then false
    else if ccnc != 0 then false
    else if !inFiducial then false
    else if !IsFinite(muP) || !IsFinite(pP) || !IsFinite(piP) || !IsFinite(lamDecaySep) then false
    else if muP.v < MinMuP || pP.v < MinPP || piP.v < MinPiP then false
    else lamDecaySep.v >= MinLamDecaySep
  }

  /** Larger momenta and a larger separation never turn a signal event into a background one. */
  lemma IsSignalMonotone(isNuMuCC: bool, ccnc: int, inFiducial: bool, muP: real, pP: real, piP: real,
                         sep: real, muP': real, pP': real, piP': real, sep': real)
    requires IsSignal(isNuMuCC, ccnc, inFiducial, Num(muP), Num(pP), Num(piP), Num(sep))
    requires muP <= muP' && pP <= pP' && piP <= piP' && sep <= sep'
    ensures IsSignal(isNuMuCC, ccnc, inFiducial, Num(muP'), Num(pP'), Num(piP'), Num(sep'))
  {
  }
}
