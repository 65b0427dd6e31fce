/**
 * framework/ana/include/EventSampleFilterService.hh: the strangeness split applied to event
 * samples by origin, so that the overlay and strangeness samples do not count the same events.
 */
module EventSampleFilterService {
  import opened Outcomes
  import opened SampleTypes

  /** filter_stage (EventSampleFilterService.hh:21-30): the name of the filter step, or null. */
  function FilterStage(origin: SampleKind): (r: Option<string>)
    ensures origin == Overlay <==> r == Some("filter_overlay")
    ensures origin == Strangeness <==> r == Some("filter_strangeness")
    ensures origin !in {Overlay, Strangeness} <==> r.None?
  {
    if origin == Overlay then Some("filter_overlay")
    else if origin == Strangeness then Some("filter_strangeness")
    else None
  }

  /** Whether apply (EventSampleFilterService.hh:32-41) keeps a row with this count_strange. */
  predicate Keeps(origin: SampleKind, countStrange: int) {
    if origin == Overlay then countStrange == 0
    else if origin == Strangeness then countStrange > 0
    else true
  }

  /** The rows the filter keeps, in order. */
  function Apply(origin: SampleKind, counts: seq<int>): (kept: seq<int>)
    ensures forall c :: c in kept <==> c in counts && Keeps(origin, c)
    ensures origin !in {Overlay, Strangeness} ==> kept == counts
  {
    if counts == [] then []
    else (if Keeps(origin, counts[0]) then [counts[0]] else []) + Apply(origin, counts[1..])
  }

  /** An origin without a filter stage keeps every row. */
  lemma UnfilteredOriginsKeepAll(origin: SampleKind, c: int)
    ensures FilterStage(origin).None? ==> Keeps(origin, c)
  {
  }

  /**
   * For non-negative strangeness counts, every row is kept by exactly one of the overlay and
   * strangeness filters, so together the two samples count each event once.
   */
  lemma {:induction false} OverlayAndStrangenessPartition(counts: seq<int>)
    requires forall i :: 0 <= i < |counts| ==> counts[i] >= 0
    ensures |Apply(Overlay, counts)| + |Apply(Strangeness, counts)| == |counts|
    ensures forall c :: c in counts ==> (Keeps(Overlay, c) <==> !Keeps(Strangeness, c))
  {
    if counts != [] {
      OverlayAndStrangenessPartition(counts[1..]);
    }
  }
}
