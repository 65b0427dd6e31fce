/**
 * ana/include/AnalysisProcessor.hh: the sample classification enums of the analysis, their
 * conversions, the channel labels, and the guards of a dataframe frame.
 */
module AnalysisProcessor {
  import opened Outcomes

  datatype Source = Data | Ext | MC | Unknown

  datatype Slice = NoSlice | BeamInclusive | StrangenessInclusive

  /** sample::origin. */
  datatype Origin = DataOrigin | Beam | StrangenessOrigin | ExtOrigin | Dirt | UnknownOrigin

  /**
   * The analysis channels. AnalysisProcessor.hh and AnalysisChannels.hh declare the same
   * thirteen channels with different codes; each header's codes are a separate function.
   */
  datatype Channel =
    | OutFV | External | MuCC0piGe1p | MuCC1pi | MuCCPi0OrGamma | MuCCNpi | NC
    | CCS1 | CCSgt1 | ECCC | MuCCOther | DataInclusive | UnknownChannel

  /** The std::uint8_t value of each Channel enumerator (AnalysisProcessor.hh:40-54). */
  function ProcessorCode(c: Channel): int {
    match c
    case OutFV => 1
    case External => 2
    case MuCC0piGe1p => 10
    case MuCC1pi => 11
    case MuCCPi0OrGamma => 12
    case MuCCNpi => 13
    case NC => 14
    case CCS1 => 15
    case CCSgt1 => 16
    case ECCC => 17
    case MuCCOther => 18
    case DataInclusive => 20
    case UnknownChannel => 99
  }

  /** The enumerator a stored code denotes, if any; every byte value is a valid Channel object. */
  function ChannelOfCode(code: int): (r: Option<Channel>)
    ensures r.Some? ==> ProcessorCode(r.value) == code
    ensures forall c :: ProcessorCode(c) == code ==> r == Some(c)
  {
    if code == 1 then Some(OutFV)
    else if code == 2 then Some(External)
    else if code == 10 then Some(MuCC0piGe1p)
    else if code == 11 then Some(MuCC1pi)
    else if code == 12 then Some(MuCCPi0OrGamma)
    else if code == 13 then Some(MuCCNpi)
    else if code == 14 then Some(NC)
    else if code == 15 then Some(CCS1)
    else if code == 16 then Some(CCSgt1)
    else if code == 17 then Some(ECCC)
    else if code == 18 then Some(MuCCOther)
    else if code == 20 then Some(DataInclusive)
    else if code == 99 then Some(UnknownChannel)
    else None
  }

  /** The legend label of each declared channel (AnalysisProcessor.hh:56-86). */
  function Label(c: Channel): string {
    match c
    case OutFV => "Out-FV"
    case External => "External"
    case MuCC0piGe1p => "CC0#pi, #geq1p"
    case MuCC1pi => "CC1#pi^{#pm}"
    case MuCCPi0OrGamma => "CC #pi^{0} / #gamma-rich"
    case MuCCNpi => "CC N#pi^{#pm} (N>1)"
    case NC => "NC (in-FV)"
    case CCS1 => "CC + 1 strange"
    case CCSgt1 => "CC + >1 strange"
    case ECCC => "#nu_{e} CC (no strange)"
    case MuCCOther => "CC other"
    case DataInclusive => "Data (incl.)"
    case UnknownChannel => "Other"
  }

  /** ChannelLabel applied to a Channel holding the byte `code`. */
  function ChannelLabel(code: int): (text: string)
    requires 0 <= code < 256
    ensures ChannelOfCode(code).None? ==> text == "Other"
    ensures code == ProcessorCode(UnknownChannel) ==> text == "Other"
    ensures forall c :: ProcessorCode(c) == code ==> text == Label(c)
  {
    match ChannelOfCode(code)
    case Some(c) => Label(c)
    case None => "Other"
  }

  /** Only Unknown and undeclared values are labelled "Other"; the declared labels are distinct. */
  lemma LabelsDistinct(a: Channel, b: Channel)
    ensures Label(a) == Label(b) ==> a == b
    ensures Label(a) == "Other" <==> a == UnknownChannel
  {
  }

  /** origin_from (AnalysisProcessor.hh:100-115). */
  function OriginFrom(s: string): (o: Origin)
    ensures s == "data" <==> o == DataOrigin
    ensures s in ["beam", "mc"] <==> o == Beam
    ensures s == "strangeness" <==> o == StrangenessOrigin
    ensures s in ["ext", "external"] <==> o == ExtOrigin
    ensures s == "dirt" <==> o == Dirt
    ensures s !in ["data", "beam", "strangeness", "ext", "external", "dirt", "mc"] <==> o == UnknownOrigin
  {
    if s == "data" then DataOrigin
    else if s == "beam" then Beam
    else if s == "strangeness" then StrangenessOrigin
    else if s == "ext" || s == "external" then ExtOrigin
    else if s == "dirt" then Dirt
    else if s == "mc" then Beam
    else UnknownOrigin
  }

  /** to_source (AnalysisProcessor.hh:117-129). */
  function ToSource(o: Origin): Source {
    match o
    case DataOrigin => Data
    case ExtOrigin => Ext
    case UnknownOrigin => Unknown
    case _ => MC
  }

  /** to_slice (AnalysisProcessor.hh:131-141). */
  function ToSlice(o: Origin): Slice {
    match o
    case Beam => BeamInclusive
    case StrangenessOrigin => StrangenessInclusive
    case _ => NoSlice
  }

  /** from_source_slice (AnalysisProcessor.hh:143-159). */
  function FromSourceSlice(src: Source, sl: Slice): (o: Origin)
    ensures ToSource(o) == src
  {
    if src == Data then DataOrigin
    else if src == Ext then ExtOrigin
    else if src == Unknown then UnknownOrigin
    else
      assert src == MC;
      match sl
      case StrangenessInclusive => StrangenessOrigin
      case BeamInclusive => Beam
      case NoSlice => Beam
  }

  /** For the Data, Ext and Unknown sources the slice is ignored. */
  lemma SliceIgnoredOutsideMC(src: Source, a: Slice, b: Slice)
    requires src != MC
    ensures FromSourceSlice(src, a) == FromSourceSlice(src, b)
  {
  }

  /** The source of an origin: the three Monte Carlo origins are MC, the rest keep their kind. */
  lemma ToSourceMapping(o: Origin)
    ensures ToSource(o) == MC <==> o in {Beam, StrangenessOrigin, Dirt}
    ensures ToSource(o) == Data <==> o == DataOrigin
    ensures ToSource(o) == Ext <==> o == ExtOrigin
    ensures ToSource(o) == Unknown <==> o == UnknownOrigin
    ensures ToSlice(o) == BeamInclusive <==> o == Beam
    ensures ToSlice(o) == StrangenessInclusive <==> o == StrangenessOrigin
  {
  }

  /** Splitting an origin into source and slice and joining them back is the identity, except dirt. */
  lemma SourceSliceRoundTrip(o: Origin)
    ensures o != Dirt ==> FromSourceSlice(ToSource(o), ToSlice(o)) == o
    ensures o == Dirt ==> FromSourceSlice(ToSource(o), ToSlice(o)) == Beam
  {
  }

  /** ProcessorEntry (AnalysisProcessor.hh:224-231): the exposure record of one sample. */
  datatype ProcessorEntry = ProcessorEntry(source: Source, potNom: real, potEqv: real, trigNom: real, trigEqv: real)

  /** A default-constructed ProcessorEntry: unknown source, zero exposures. */
  const DefaultProcessorEntry := ProcessorEntry(Unknown, 0.0, 0.0, 0.0, 0.0)

  /** Frame: a dataframe and its current node, which may be unset. */
  datatype Frame<N> = Frame(node: Option<N>)

  /** Frame::rnode (AnalysisProcessor.hh:182-187). */
  function RNode<N>(f: Frame<N>): (r: Result<N>)
    ensures r.Err? <==> f.node.None?
    ensures r.Err? ==> r.msg == "Frame::rnode: node is not initialised"
    ensures r.Ok? ==> r.value == f.node.value
  {
    match f.node
    case None => Err("Frame::rnode: node is not initialised")
    case Some(n) => Ok(n)
  }

  /** Frame::report (AnalysisProcessor.hh:175-180); `report` stands for RNode::Report. */
  function Report<N, R>(f: Frame<N>, report: N -> R): (r: Result<R>)
    ensures r.Err? <==> f.node.None?
    ensures r.Err? ==> r.msg == "Frame::report: node is not initialised"
    ensures r.Ok? ==> r.value == report(f.node.value)
  {
    match f.node
    case None => Err("Frame::report: node is not initialised")
    case Some(n) => Ok(report(n))
  }

  /** Entry: one sample of the analysis with its nominal frame and its detector variations. */
  datatype Entry<N> = Entry(
    beamline: string, period: string, source: Source, slice: Slice, kind: Origin,
    files: seq<string>, file: string,
    potNom: real, potEqv: real, trigNom: real, trigEqv: real,
    nominal: Frame<N>, detvars: map<string, Frame<N>>)

  /** The default-initialised Entry (AnalysisProcessor.hh:190-206). */
  function DefaultEntry<N>(): (e: Entry<N>)
    ensures e.source == Unknown && e.slice == BeamInclusive && e.kind == UnknownOrigin
    ensures e.potNom == 0.0 && e.potEqv == 0.0 && e.trigNom == 0.0 && e.trigEqv == 0.0
    ensures e.nominal.node.None? && e.detvars == map[]
  {
    Entry("", "", Unknown, BeamInclusive, UnknownOrigin, [], "", 0.0, 0.0, 0.0, 0.0, Frame(None), map[])
  }

  /** Entry::detvar (AnalysisProcessor.hh:209-213): null exactly for a tag with no variation. */
  function Detvar<N>(e: Entry<N>, tag: string): (r: Option<Frame<N>>)
    ensures r.None? <==> tag !in e.detvars
    ensures r.Some? ==> r.value == e.detvars[tag]
  {
    if tag in e.detvars then Some(e.detvars[tag]) else None
  }

  predicate Distinct<T(==)>(s: seq<T>) {
    forall i, j :: 0 <= i < j < |s| ==> s[i] != s[j]
  }

  /**
   * Entry::variation_tags (AnalysisProcessor.hh:214-221): every key of `detvars` once, in the
   * map's iteration order, which the model leaves open.
   */
  method VariationTags<N>(e: Entry<N>) returns (tags: seq<string>)
    ensures (set t | t in tags) == e.detvars.Keys
    ensures Distinct(tags)
    ensures |tags| == |e.detvars|
  {
    tags := [];
    var rest := e.detvars.Keys;
    while rest != {}
      invariant rest <= e.detvars.Keys
      invariant forall t :: t in tags <==> t in e.detvars && t !in rest
      invariant Distinct(tags)
      invariant |tags| + |rest| == |e.detvars|
      decreases |rest|
    {
      var k :| k in rest;
      tags := tags + [k];
      rest := rest - {k};
    }
  }
}
