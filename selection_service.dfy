/**
 * ana/src/SelectionService.cc: the preset event selections, each a row predicate, and the
 * selection's own copy of the detector volumes.
 */
module SelectionService {
  import opened AnalysisProcessor
  import opened Seqs
  import Rdf = AnalysisRdfDefinitions

  const TriggerMinBeamPe: real := 0.0
  const TriggerMaxVetoPe: real := 20.0
  const SliceRequiredCount: int := 1
  const SliceMinTopologyScore: real := 0.06
  const MuonMinTrackScore: real := 0.5
  const MuonMinTrackLength: real := 10.0
  const MuonMaxTrackDistance: real := 4.0
  const MuonRequiredGeneration: int := 2

  datatype Preset = Empty | Trigger | SlicePreset | Fiducial | Topology | Muon | OtherPreset

  /** The four per-particle columns the muon selection reads, zipped by particle. */
  datatype Track = Track(score: real, length: real, distanceToVertex: real, generation: int)

  /** The columns of one event that the presets read. */
  datatype Row = Row(
    opticalFilterPeBeam: real, opticalFilterPeVeto: real, softwareTrigger: int,
    numSlices: int, topologicalScore: real, inRecoFiducial: bool, tracks: seq<Track>)

  /** A track that passes the muon-candidate cuts (SelectionService.cc:96-99). */
  predicate IsMuonCandidate(t: Track) {
    t.score > MuonMinTrackScore && t.length > MuonMinTrackLength
    && t.distanceToVertex < MuonMaxTrackDistance && t.generation == MuonRequiredGeneration
  }

  predicate HasMuonCandidate(tracks: seq<Track>) {
    exists i :: 0 <= i < |tracks| && IsMuonCandidate(tracks[i])
  }

  /** The muon filter's loop (SelectionService.cc:89-106): stops at the first passing track. */
  method FindMuonCandidate(tracks: seq<Track>) returns (found: bool)
    ensures found <==> HasMuonCandidate(tracks)
  {
    var i := 0;
    while i < |tracks|
      invariant 0 <= i <= |tracks|
      invariant forall k :: 0 <= k < i ==> !IsMuonCandidate(tracks[k])
    {
      if IsMuonCandidate(tracks[i]) {
        return true;
      }
      i := i + 1;
    }
    return false;
  }

  /** Whether a row of a sample with source `src` survives preset `p` (SelectionService.cc:55-117). */
  predicate Accepts(p: Preset, src: Source, r: Row)
    decreases p == Muon, p == Topology, p == Fiducial
  {
    match p
    case Empty => true
    case Trigger =>
      src == MC ==> r.opticalFilterPeBeam > TriggerMinBeamPe && r.opticalFilterPeVeto < TriggerMaxVetoPe
                    && r.softwareTrigger > 0
    case SlicePreset => r.numSlices == SliceRequiredCount && r.topologicalScore > SliceMinTopologyScore
    case Fiducial => Accepts(SlicePreset, src, r) && r.inRecoFiducial
    case Topology => Accepts(Fiducial, src, r)
    case Muon => Accepts(Topology, src, r) && HasMuonCandidate(r.tracks)
    case OtherPreset => true
  }

  /** The empty preset and unlisted presets keep every row; the trigger keeps every non-MC row. */
  lemma PassThroughPresets(src: Source, r: Row)
    ensures Accepts(Empty, src, r) && Accepts(OtherPreset, src, r)
    ensures src != MC ==> Accepts(Trigger, src, r)
    ensures src == MC ==> (Accepts(Trigger, src, r) <==>
      r.opticalFilterPeBeam > 0.0 && r.opticalFilterPeVeto < 20.0 && r.softwareTrigger > 0)
  {
  }

  /** The accepted rows nest: Muon within Topology, which equals Fiducial, within Slice. */
  lemma PresetsNest(src: Source, r: Row)
    ensures Accepts(Muon, src, r) ==> Accepts(Topology, src, r)
    ensures Accepts(Topology, src, r) <==> Accepts(Fiducial, src, r)
    ensures Accepts(Fiducial, src, r) ==> Accepts(SlicePreset, src, r)
    ensures Accepts(Muon, src, r) <==>
      Accepts(Fiducial, src, r) && exists i :: 0 <= i < |r.tracks| && IsMuonCandidate(r.tracks[i])
  {
  }

  /** The rows of `rows` a preset keeps, in order (the dataframe Filter). */
  function Select(p: Preset, src: Source, rows: seq<Row>): (kept: seq<Row>)
    ensures forall r :: r in kept <==> r in rows && Accepts(p, src, r)
    ensures multiset(kept) <= multiset(rows)
    ensures |kept| <= |rows|
  {
    if rows == [] then []
    else
      assert rows == [rows[0]] + rows[1..];
      (if Accepts(p, src, rows[0]) then [rows[0]] else []) + Select(p, src, rows[1..])
  }

  /** Selecting from consecutive blocks of rows keeps each block's rows, blocks in order. */
  lemma {:induction false} SelectAppend(p: Preset, src: Source, a: seq<Row>, b: seq<Row>)
    ensures Select(p, src, a + b) == Select(p, src, a) + Select(p, src, b)
  {
    if a == [] {
      assert a + b == b;
    } else {
      var head := if Accepts(p, src, a[0]) then [a[0]] else [];
      assert (a + b)[0] == a[0] && (a + b)[1..] == a[1..] + b;
      assert Select(p, src, a + b) == head + Select(p, src, a[1..] + b);
      SelectAppend(p, src, a[1..], b);
      ConcatAssoc(head, Select(p, src, a[1..]), Select(p, src, b));
    }
  }

  /** Every row the muon preset keeps is kept by the slice preset too. */
  lemma {:induction false} SelectNests(src: Source, rows: seq<Row>)
    ensures |Select(Muon, src, rows)| <= |Select(Fiducial, src, rows)| <= |Select(SlicePreset, src, rows)|
    ensures Select(Topology, src, rows) == Select(Fiducial, src, rows)
  {
    if rows != [] {
      SelectNests(src, rows[1..]);
      PresetsNest(src, rows[0]);
    }
  }

  const MinX: real := 5.0
  const MaxX: real := 251.0
  const MinY: real := -110.0
  const MaxY: real := 110.0
  const MinZ: real := 20.0
  const MaxZ: real := 986.0
  const RecoGapMinZ: real := 675.0
  const RecoGapMaxZ: real := 775.0

  predicate InActiveVolume(x: real, y: real, z: real) {
    (x > MinX && x < MaxX) && (y > MinY && y < MaxY) && (z > MinZ && z < MaxZ)
  }

  /** is_in_truth_volume (SelectionService.cc:119-122). */
  predicate IsInTruthVolume(x: real, y: real, z: real) {
    InActiveVolume(x, y, z)
  }

  /** is_in_reco_volume (SelectionService.cc:124-127). */
  predicate IsInRecoVolume(x: real, y: real, z: real) {
    InActiveVolume(x, y, z) && (z < RecoGapMinZ || z > RecoGapMaxZ)
  }

  /** The selection's volumes are those of the column definitions, and reco lies within truth. */
  lemma VolumesAgree(x: real, y: real, z: real)
    ensures IsInTruthVolume(x, y, z) <==> Rdf.InTruthVolume(x, y, z)
    ensures IsInRecoVolume(x, y, z) <==> Rdf.InRecoVolume(x, y, z)
    ensures IsInRecoVolume(x, y, z) ==> IsInTruthVolume(x, y, z)
  {
  }
}
