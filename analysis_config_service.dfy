/**
 * framework/ana/include/AnalysisConfigService.hh: the exposure record handed to the analysis
 * for a sample. The SampleIO::Sample it reads is not part of this model; its origin is the
 * Sample's kind.
 */
module AnalysisConfigService {
  import opened SampleTypes
  import opened Sample
  import AP = AnalysisProcessor
  import opened SampleAggregator
  import opened AnalysisRdfDefinitions

  /** make_processor (AnalysisConfigService.hh:25-52). */
  function MakeProcessor(s: Sample): (e: AP.ProcessorEntry)
    ensures s.kind == Data ==> e == AP.ProcessorEntry(AP.Data, 0.0, 0.0, 0.0, 0.0)
    ensures s.kind == Ext ==> e == AP.ProcessorEntry(AP.Ext, 0.0, 0.0, s.dbTor101PotSum, s.subrunPotSum)
    ensures s.kind in {Overlay, Dirt, Strangeness} ==>
      e == AP.ProcessorEntry(AP.MC, s.dbTortgtPotSum, s.subrunPotSum, 0.0, 0.0)
    ensures s.kind == UnknownKind ==> e == AP.DefaultProcessorEntry
  {
    var e := AP.DefaultProcessorEntry;
    match s.kind
    case Data => e.(source := AP.Data)
    case Ext => e.(source := AP.Ext, trigNom := s.dbTor101PotSum, trigEqv := s.subrunPotSum)
    case Overlay => e.(source := AP.MC, potNom := s.dbTortgtPotSum, potEqv := s.subrunPotSum)
    case Dirt => e.(source := AP.MC, potNom := s.dbTortgtPotSum, potEqv := s.subrunPotSum)
    case Strangeness => e.(source := AP.MC, potNom := s.dbTortgtPotSum, potEqv := s.subrunPotSum)
    case UnknownKind => e.(source := AP.Unknown)
  }

  /** Only Monte Carlo samples fill the POT fields and only EXT samples the trigger fields. */
  lemma SourceOfKind(s: Sample)
    ensures MakeProcessor(s).source == AP.MC <==> s.kind in {Overlay, Dirt, Strangeness}
    ensures MakeProcessor(s).source != AP.MC ==> MakeProcessor(s).potNom == 0.0 && MakeProcessor(s).potEqv == 0.0
    ensures MakeProcessor(s).source != AP.Ext ==> MakeProcessor(s).trigNom == 0.0 && MakeProcessor(s).trigEqv == 0.0
  {
  }

  /**
   * For a Monte Carlo sample whose normalisation was derived from its aggregate sums, as
   * Aggregate derives it, the analysis event weight w_base is that normalisation.
   */
  lemma WBaseIsSampleNormalization(s: Sample)
    requires s.kind in {Overlay, Dirt, Strangeness}
    requires s.normalization == ComputeNormalization(s.subrunPotSum, s.dbTortgtPotSum)
    ensures WBase(MakeProcessor(s)) == s.normalization
  {
    var e := MakeProcessor(s);
    if s.subrunPotSum > 0.0 && s.dbTortgtPotSum > 0.0 {
      assert WBase(e) * s.subrunPotSum == s.dbTortgtPotSum;
      assert s.normalization * s.subrunPotSum == s.dbTortgtPotSum;
    }
  }
}
