/** The provenance records of sample/include/Sample.hh, with their default member values. */
module Sample {
  import opened SampleTypes

  /** One stage's contribution to a sample (SampleFragment); POT values are exact reals. */
  datatype SampleFragment = SampleFragment(
    fragmentName: string,
    artioPath: string,
    subrunPotSum: real,
    dbTortgtPot: real,
    dbTor101Pot: real,
    normalization: real,
    normalizedPotSum: real)

  /** An aggregated sample: its classification, its fragments in order, and the aggregate sums. */
  datatype Sample = Sample(
    sampleName: string,
    kind: SampleKind,
    beam: BeamMode,
    fragments: seq<SampleFragment>,
    subrunPotSum: real,
    dbTortgtPotSum: real,
    dbTor101PotSum: real,
    normalization: real,
    normalizedPotSum: real)

  /** A default-constructed SampleFragment (Sample.hh:19-30). */
  const DefaultFragment := SampleFragment("", "", 0.0, 0.0, 0.0, 1.0, 0.0)

  /** A default-constructed Sample (Sample.hh:32-46): unknown kind and beam, no fragments, zero sums. */
  const DefaultSample := Sample("", UnknownKind, UnknownBeam, [], 0.0, 0.0, 0.0, 1.0, 0.0)
}
