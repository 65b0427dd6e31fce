/**
 * sample/src/SampleAggregator.cc: folds the provenance records of one or more art files into a
 * Sample, checking that they agree on kind and beam, summing the POT counters and deriving the
 * normalisation from the aggregate sums.
 */
module SampleAggregator {
  import opened Outcomes
  import opened SampleTypes
  import opened Sample

  /** The fields of an art provenance record that aggregation uses (ArtFileProvenance). */
  datatype Provenance = Provenance(
    stageName: string,
    kind: SampleKind,
    beam: BeamMode,
    subrunPotSum: real,
    dbTortgtPot: real,
    dbTor101Pot: real)

  /**
   * ComputeNormalization (SampleAggregator.cc:61-72): the target-to-observed POT ratio, or 1
   * ("no rescaling") when either exposure is not positive. The factor is always positive.
   */
  function ComputeNormalization(observed: real, target: real): (n: real)
    ensures observed <= 0.0 || target <= 0.0 ==> n == 1.0
    ensures observed > 0.0 && target > 0.0 ==> n * observed == target
    ensures n > 0.0
  {
    if observed <= 0.0 then 1.0
    else if target <= 0.0 then 1.0
    else target / observed
  }

  /**
   * Rescaling the observed POT by the normalisation gives the target exposure when both are
   * positive, and leaves the observed POT unchanged otherwise.
   */
  lemma NormalizedPot(observed: real, target: real)
    ensures observed * ComputeNormalization(observed, target)
      == if observed > 0.0 && target > 0.0 then target else observed
  {
  }

  /** The defaults of Sample.hh hold ComputeNormalization's "no rescaling" value. */
  lemma DefaultsAreNeutral(target: real)
    ensures DefaultFragment.normalization == ComputeNormalization(0.0, target)
    ensures DefaultSample.normalization == ComputeNormalization(DefaultSample.subrunPotSum, target)
    ensures DefaultSample.fragments == [] && DefaultSample.kind == UnknownKind && DefaultSample.beam == UnknownBeam
  {
  }

  /** MakeFragment (SampleAggregator.cc:74-85). */
  function MakeFragment(prov: Provenance, artioPath: string): (f: SampleFragment)
    ensures f.fragmentName == prov.stageName && f.artioPath == artioPath
    ensures f.subrunPotSum == prov.subrunPotSum
    ensures f.dbTortgtPot == prov.dbTortgtPot && f.dbTor101Pot == prov.dbTor101Pot
    ensures f.normalization == ComputeNormalization(f.subrunPotSum, f.dbTortgtPot)
    ensures f.normalizedPotSum == f.subrunPotSum * f.normalization
  {
    var n := ComputeNormalization(prov.subrunPotSum, prov.dbTortgtPot);
    SampleFragment(prov.stageName, artioPath, prov.subrunPotSum, prov.dbTortgtPot,
                   prov.dbTor101Pot, n, prov.subrunPotSum * n)
  }

  /** Left-to-right sums of the fragment counters, as the aggregation loop accumulates them. */
  function SubrunSum(fs: seq<SampleFragment>): real {
    if |fs| == 0 then 0.0 else SubrunSum(fs[..|fs| - 1]) + fs[|fs| - 1].subrunPotSum
  }

  function TortgtSum(fs: seq<SampleFragment>): real {
    if |fs| == 0 then 0.0 else TortgtSum(fs[..|fs| - 1]) + fs[|fs| - 1].dbTortgtPot
  }

  function Tor101Sum(fs: seq<SampleFragment>): real {
    if |fs| == 0 then 0.0 else Tor101Sum(fs[..|fs| - 1]) + fs[|fs| - 1].dbTor101Pot
  }

  /** Every path's provenance record can be read. */
  predicate AllReadable(paths: seq<string>, read: string -> Result<Provenance>) {
    forall i :: 0 <= i < |paths| ==> read(paths[i]).Ok?
  }

  /** Every record agrees with the first on kind and beam. */
  predicate Consistent(paths: seq<string>, read: string -> Result<Provenance>)
    requires |paths| > 0 && AllReadable(paths, read)
  {
    forall i :: 0 <= i < |paths| ==>
      read(paths[i]).value.kind == read(paths[0]).value.kind &&
      read(paths[i]).value.beam == read(paths[0]).value.beam
  }

  /** A record that cannot be read rules the path list out. */
  lemma UnreadableBreaks(paths: seq<string>, read: string -> Result<Provenance>, k: nat)
    requires k < |paths| && read(paths[k]).Err?
    ensures !AllReadable(paths, read)
  {
  }

  /** A record disagreeing with the first on kind or beam rules the path list out. */
  lemma MismatchBreaks(paths: seq<string>, read: string -> Result<Provenance>, k: nat)
    requires 0 < k < |paths| && read(paths[0]).Ok? && read(paths[k]).Ok?
    requires read(paths[k]).value.kind != read(paths[0]).value.kind || read(paths[k]).value.beam != read(paths[0]).value.beam
    ensures !(AllReadable(paths, read) && Consistent(paths, read))
  {
  }

  /** One iteration of the aggregation loop: push the fragment and add its counters to the sums. */
  function Extend(out: Sample, f: SampleFragment): (r: Sample)
    ensures r.sampleName == out.sampleName && r.kind == out.kind && r.beam == out.beam
    ensures r.fragments == out.fragments + [f]
    ensures out.subrunPotSum == SubrunSum(out.fragments) ==> r.subrunPotSum == SubrunSum(r.fragments)
    ensures out.dbTortgtPotSum == TortgtSum(out.fragments) ==> r.dbTortgtPotSum == TortgtSum(r.fragments)
    ensures out.dbTor101PotSum == Tor101Sum(out.fragments) ==> r.dbTor101PotSum == Tor101Sum(r.fragments)
  {
    var fs := out.fragments + [f];
    assert fs[..|fs| - 1] == out.fragments;
    out.(subrunPotSum := out.subrunPotSum + f.subrunPotSum,
         dbTortgtPotSum := out.dbTortgtPotSum + f.dbTortgtPot,
         dbTor101PotSum := out.dbTor101PotSum + f.dbTor101Pot,
         fragments := fs)
  }

  /**
   * Aggregate (SampleAggregator.cc:17-59). `read` stands for ArtFileProvenanceRootIO::read,
   * which may throw. The result exists exactly when there is at least one path, every record
   * is readable and all agree on kind and beam; it then holds one fragment per path in order,
   * the sums of the fragment counters, and a normalisation computed from those sums.
   */
  method Aggregate(sampleName: string, paths: seq<string>, read: string -> Result<Provenance>)
    returns (r: Result<Sample>)
    ensures |paths| == 0 ==> r == Err("Sample aggregation requires at least one art provenance file.")
    ensures r.Ok? <==> |paths| > 0 && AllReadable(paths, read) && Consistent(paths, read)
    ensures r.Ok? ==>
      var s := r.value;
      && s.sampleName == sampleName
      && s.kind == read(paths[0]).value.kind && s.beam == read(paths[0]).value.beam
      && |s.fragments| == |paths|
      && (forall i :: 0 <= i < |paths| ==> s.fragments[i] == MakeFragment(read(paths[i]).value, paths[i]))
      && s.subrunPotSum == SubrunSum(s.fragments)
      && s.dbTortgtPotSum == TortgtSum(s.fragments)
      && s.dbTor101PotSum == Tor101Sum(s.fragments)
      && s.normalization == ComputeNormalization(s.subrunPotSum, s.dbTortgtPotSum)
      && s.normalizedPotSum == s.subrunPotSum * s.normalization
  {
    if |paths| == 0 {
      return Err("Sample aggregation requires at least one art provenance file.");
    }
    var folded := FoldFragments(sampleName, paths, read);
    if folded.Err? {
      return folded;
    }
    var out := folded.value;
    var n := ComputeNormalization(out.subrunPotSum, out.dbTortgtPotSum);
    return Ok(out.(normalization := n, normalizedPotSum := out.subrunPotSum * n));
  }

  /** The sample the aggregation loop has built from all of `paths`, before normalisation. */
  predicate Folded(s: Sample, sampleName: string, paths: seq<string>, read: string -> Result<Provenance>)
    requires |paths| > 0 && AllReadable(paths, read)
  {
    && s.sampleName == sampleName
    && s.kind == read(paths[0]).value.kind && s.beam == read(paths[0]).value.beam
    && |s.fragments| == |paths|
    && (forall i :: 0 <= i < |paths| ==> s.fragments[i] == MakeFragment(read(paths[i]).value, paths[i]))
    && s.subrunPotSum == SubrunSum(s.fragments)
    && s.dbTortgtPotSum == TortgtSum(s.fragments)
    && s.dbTor101PotSum == Tor101Sum(s.fragments)
  }

  /** What the aggregation loop has built after reading the first `k` records. */
  predicate Prefix(out: Sample, sampleName: string, paths: seq<string>, read: string -> Result<Provenance>, k: nat)
    requires k <= |paths|
  {
    && out.sampleName == sampleName
    && |out.fragments| == k
    && (forall i :: 0 <= i < k ==> read(paths[i]).Ok?)
    && (forall i :: 0 <= i < k ==> out.fragments[i] == MakeFragment(read(paths[i]).value, paths[i]))
    && (forall i :: 0 <= i < k ==> read(paths[i]).value.kind == out.kind && read(paths[i]).value.beam == out.beam)
    && out.subrunPotSum == SubrunSum(out.fragments)
    && out.dbTortgtPotSum == TortgtSum(out.fragments)
    && out.dbTor101PotSum == Tor101Sum(out.fragments)
  }

  /** The first record fixes the kind and beam of the sample; later ones leave them. */
  function Adopt(out: Sample, prov: Provenance, k: nat): Sample {
    if k == 0 then out.(kind := prov.kind, beam := prov.beam) else out
  }

  /** Reading one more record that agrees with the sample extends the prefix by one fragment. */
  lemma PrefixStep(out: Sample, sampleName: string, paths: seq<string>, read: string -> Result<Provenance>, k: nat)
    requires k < |paths| && Prefix(out, sampleName, paths, read, k) && read(paths[k]).Ok?
    requires k > 0 ==> read(paths[k]).value.kind == out.kind && read(paths[k]).value.beam == out.beam
    ensures Prefix(Extend(Adopt(out, read(paths[k]).value, k), MakeFragment(read(paths[k]).value, paths[k])),
                   sampleName, paths, read, k + 1)
  {
    var next := Extend(Adopt(out, read(paths[k]).value, k), MakeFragment(read(paths[k]).value, paths[k]));
    assert forall i :: 0 <= i < k ==> next.fragments[i] == out.fragments[i];
  }

  /** A disagreeing record rules the path list out. */
  lemma PrefixMismatch(out: Sample, sampleName: string, paths: seq<string>, read: string -> Result<Provenance>, k: nat)
    requires 0 < k < |paths| && Prefix(out, sampleName, paths, read, k) && read(paths[k]).Ok?
    requires read(paths[k]).value.kind != out.kind || read(paths[k]).value.beam != out.beam
    ensures !(AllReadable(paths, read) && Consistent(paths, read))
  {
    MismatchBreaks(paths, read, k);
  }

  /** Once every record is read, the prefix is the folded sample and the list is consistent. */
  lemma PrefixDone(out: Sample, sampleName: string, paths: seq<string>, read: string -> Result<Provenance>)
    requires |paths| > 0 && Prefix(out, sampleName, paths, read, |paths|)
    ensures AllReadable(paths, read) && Consistent(paths, read)
    ensures Folded(out, sampleName, paths, read)
  {
  }

  /** The loop of Aggregate (SampleAggregator.cc:28-53): stops at the first unreadable or disagreeing record. */
  method FoldFragments(sampleName: string, paths: seq<string>, read: string -> Result<Provenance>)
    returns (r: Result<Sample>)
    requires |paths| > 0
    ensures r.Ok? <==> AllReadable(paths, read) && Consistent(paths, read)
    ensures r.Ok? ==> Folded(r.value, sampleName, paths, read)
  {
    var out := DefaultSample.(sampleName := sampleName);
    var k := 0;
    while k < |paths|
      invariant k <= |paths|
      invariant Prefix(out, sampleName, paths, read, k)
    {
      var path := paths[k];
      var rec := read(path);
      if rec.Err? {
        UnreadableBreaks(paths, read, k);
        return Err(rec.msg);
      }
      var prov := rec.value;
      if k > 0 && prov.kind != out.kind {
        PrefixMismatch(out, sampleName, paths, read, k);
        return Err("Sample kind mismatch in art provenance file: " + path);
      }
      if k > 0 && prov.beam != out.beam {
        PrefixMismatch(out, sampleName, paths, read, k);
        return Err("Beam mode mismatch in art provenance file: " + path);
      }
      PrefixStep(out, sampleName, paths, read, k);
      out := Extend(Adopt(out, prov, k), MakeFragment(prov, path));
      k := k + 1;
    }
    PrefixDone(out, sampleName, paths, read);
    return Ok(out);
  }

  /** Each fragment's own normalised sum is its target POT when both counters are positive. */
  lemma FragmentNormalizedPot(prov: Provenance, path: string)
    ensures var f := MakeFragment(prov, path);
      f.normalizedPotSum == if f.subrunPotSum > 0.0 && f.dbTortgtPot > 0.0 then f.dbTortgtPot else f.subrunPotSum
  {
    var f := MakeFragment(prov, path);
    NormalizedPot(f.subrunPotSum, f.dbTortgtPot);
  }

  /** Sums over a fragment list split in two add up (used for several-stage merges). */
  lemma {:induction false} SubrunSumAppend(a: seq<SampleFragment>, b: seq<SampleFragment>)
    ensures SubrunSum(a + b) == SubrunSum(a) + SubrunSum(b)
    decreases |b|
  {
    if |b| == 0 {
      assert a + b == a;
    } else {
      assert (a + b)[..|a + b| - 1] == a + b[..|b| - 1];
      SubrunSumAppend(a, b[..|b| - 1]);
    }
  }

  lemma {:induction false} TortgtSumAppend(a: seq<SampleFragment>, b: seq<SampleFragment>)
    ensures TortgtSum(a + b) == TortgtSum(a) + TortgtSum(b)
    decreases |b|
  {
    if |b| == 0 {
      assert a + b == a;
    } else {
      assert (a + b)[..|a + b| - 1] == a + b[..|b| - 1];
      TortgtSumAppend(a, b[..|b| - 1]);
    }
  }

  lemma {:induction false} Tor101SumAppend(a: seq<SampleFragment>, b: seq<SampleFragment>)
    ensures Tor101Sum(a + b) == Tor101Sum(a) + Tor101Sum(b)
    decreases |b|
  {
    if |b| == 0 {
      assert a + b == a;
    } else {
      assert (a + b)[..|a + b| - 1] == a + b[..|b| - 1];
      Tor101SumAppend(a, b[..|b| - 1]);
    }
  }
}
