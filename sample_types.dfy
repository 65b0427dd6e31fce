/**
 * The classification enums a Sample carries. Their declaring header (SampleTypes.hh) is not part
 * of this model: the kinds are the sample origins the analysis code switches on, and the
 * beam modes are the ones the drivers assign.
 */
module SampleTypes {

  datatype SampleKind = UnknownKind | Data | Ext | Overlay | Dirt | Strangeness

  datatype BeamMode = UnknownBeam | BNB | NuMI
}
