/**
 * The offline tier analysis (test_tier_batch.py): the LLM-free trigger-phrase scan of
 * a cached transcript and the per-tier clip-yield estimate. Fetching, the database
 * and the printed report are not modelled.
 */
module TierBatch {
  import opened Wrappers
  import opened Seqs
  import opened Text
  import opened ClipPatterns
  import V3 = ClipFinderV3

  /** One value of the `pattern_counts` dict, with its key `id`. */
  datatype PatternCount = PatternCount(
    id: string, name: string, count: nat, weight: real, weightedScore: real, matchedPhrases: seq<string>)

  /** `len(re.findall(re.escape(trigger.lower()), full_text))`, `text` already lower-cased. */
  function Hits(text: string, trigger: string): nat {
    CountOccurrences(text, Lower(trigger))
  }

  /** The pattern's `count`: the hits of all its triggers. */
  function TriggerCount(text: string, triggers: seq<string>): nat
    decreases |triggers|
  {
    if triggers == [] then 0
    else TriggerCount(text, triggers[..|triggers| - 1]) + Hits(text, triggers[|triggers| - 1])
  }

  /** `f"{trigger} ({matches}x)"`. */
  function Label(trigger: string, matches: nat): string {
    trigger + " (" + NatToString(matches) + "x)"
  }

  /** The phrases the inner loop appends, one per trigger that hits. */
  function Phrases(text: string, triggers: seq<string>): seq<string>
    decreases |triggers|
  {
    if triggers == [] then []
    else
      var t := triggers[|triggers| - 1];
      Phrases(text, triggers[..|triggers| - 1]) + (if Hits(text, t) > 0 then [Label(t, Hits(text, t))] else [])
  }

  function HitIn(text: string): string -> bool { (t: string) => Hits(text, t) > 0 }

  function LabelsIn(text: string, triggers: seq<string>): (r: seq<string>)
    ensures |r| == |triggers|
    ensures forall k :: 0 <= k < |r| ==> r[k] == Label(triggers[k], Hits(text, triggers[k]))
    decreases |triggers|
  {
    if triggers == [] then []
    else LabelsIn(text, triggers[..|triggers| - 1]) + [Label(triggers[|triggers| - 1], Hits(text, triggers[|triggers| - 1]))]
  }

  /** The matched phrases are the labels of exactly the triggers that hit, in
      trigger-list order. */
  lemma {:induction false} PhrasesAreMatchedTriggers(text: string, triggers: seq<string>)
    ensures Phrases(text, triggers) == LabelsIn(text, Filter(triggers, HitIn(text)))
    decreases |triggers|
  {
    if triggers != [] {
      var init := triggers[..|triggers| - 1];
      var t := triggers[|triggers| - 1];
      PhrasesAreMatchedTriggers(text, init);
      var f := Filter(init, HitIn(text));
      if Hits(text, t) > 0 {
        var g := f + [t];
        assert g[..|g| - 1] == f;
      }
    }
  }

  /** A pattern counts zero iff none of its triggers is empty and none occurs in the
      text (an empty trigger matches everywhere). */
  lemma {:induction false} TriggerCountZero(text: string, triggers: seq<string>)
    ensures TriggerCount(text, triggers) == 0 <==>
      forall k :: 0 <= k < |triggers| ==> Lower(triggers[k]) != [] && !Contains(text, Lower(triggers[k]))
    decreases |triggers|
  {
    if triggers != [] {
      var init := triggers[..|triggers| - 1];
      var t := triggers[|triggers| - 1];
      TriggerCountZero(text, init);
      if Lower(t) != [] {
        CountOccurrencesZero(text, Lower(t));
      }
      assert forall k :: 0 <= k < |init| ==> init[k] == triggers[k];
    }
  }

  /** `count * pattern["weight"]`. */
  function Weighted(count: nat, weight: real): real { count as real * weight }

  /** The dict entry for one pattern, present only when its count is positive. */
  function PatternEntry(text: string, p: ClipPattern): Option<PatternCount> {
    var count := TriggerCount(text, p.triggers);
    if count > 0 then Some(PatternCount(p.id, p.name, count, p.weight, Weighted(count, p.weight), FirstN(Phrases(text, p.triggers), 5)))
    else None
  }

  /** A pattern has an entry iff its count is positive; the entry carries the
      pattern's name and weight, `weighted_score` is count times weight, and the
      phrases are the labels of the first (at most five) triggers that hit. */
  lemma PatternEntrySpec(text: string, p: ClipPattern)
    ensures var r := PatternEntry(text, p);
      && (r.Some? <==> TriggerCount(text, p.triggers) > 0)
      && (r.Some? ==>
            && r.value.id == p.id && r.value.name == p.name && r.value.weight == p.weight
            && r.value.count == TriggerCount(text, p.triggers)
            && r.value.weightedScore == Weighted(r.value.count, p.weight)
            && r.value.matchedPhrases == FirstN(LabelsIn(text, Filter(p.triggers, HitIn(text))), 5)
            && |r.value.matchedPhrases| <= 5)
  {
    PhrasesAreMatchedTriggers(text, p.triggers);
  }

  function EntryFor(text: string): ClipPattern -> Option<PatternCount> {
    (p: ClipPattern) => PatternEntry(text, p)
  }

  /** `quick_pattern_scan` on the lower-cased text: the entries in pattern order. */
  function Scan(text: string, ps: seq<ClipPattern>): seq<PatternCount> {
    Collect(ps, EntryFor(text))
  }

  /** An entry is in the result iff it is the entry of some pattern; so only patterns
      that hit appear, and every pattern that hits does. */
  lemma ScanMembers(text: string, ps: seq<ClipPattern>)
    ensures forall e :: e in Scan(text, ps) <==> exists k :: 0 <= k < |ps| && PatternEntry(text, ps[k]) == Some(e)
  {
    CollectMembers(ps, EntryFor(text));
  }

  /** The inner trigger loop for one pattern. */
  method CountTriggers(text: string, triggers: seq<string>) returns (count: nat, matchedPhrases: seq<string>)
    ensures count == TriggerCount(text, triggers)
    ensures matchedPhrases == Phrases(text, triggers)
  {
    count := 0;
    matchedPhrases := [];
    var j := 0;
    while j < |triggers|
      invariant 0 <= j <= |triggers|
      invariant count == TriggerCount(text, triggers[..j])
      invariant matchedPhrases == Phrases(text, triggers[..j])
    {
      assert triggers[..j + 1][..j] == triggers[..j];
      var matches := CountOccurrences(text, Lower(triggers[j]));
      if matches > 0 {
        count := count + matches;
        matchedPhrases := matchedPhrases + [Label(triggers[j], matches)];
      }
      j := j + 1;
    }
    assert triggers[..j] == triggers;
  }

  method QuickPatternScan(fullText: string, ps: seq<ClipPattern>) returns (patternCounts: seq<PatternCount>)
    ensures patternCounts == Scan(Lower(fullText), ps)
  {
    var text := Lower(fullText);
    patternCounts := [];
    var i := 0;
    while i < |ps|
      invariant 0 <= i <= |ps|
      invariant patternCounts == Scan(text, ps[..i])
    {
      assert ps[..i + 1][..i] == ps[..i];
      var count, matchedPhrases := CountTriggers(text, ps[i].triggers);
      if count > 0 {
        var p := ps[i];
        patternCounts := patternCounts + [PatternCount(p.id, p.name, count, p.weight, Weighted(count, p.weight), FirstN(matchedPhrases, 5))];
      }
      i := i + 1;
    }
    assert ps[..i] == ps;
  }

  // ---------------------------------------------------------------------------
  // Estimated yield

  function WeightedScore(e: PatternCount): real { e.weightedScore }

  /** The per-transcript figures the yield estimate reads. */
  datatype Analysis = Analysis(totalWeightedScore: real, patternCount: nat)

  function AnalysisOf(patternCounts: seq<PatternCount>): Analysis {
    Analysis(SumBy(patternCounts, WeightedScore), |patternCounts|)
  }

  function Min(a: int, b: int): int { if a <= b then a else b }

  /** A transcript scoring at least ten times the tier's minimum adds
      `min(pattern_count, max_clips_per_video)`; the others add nothing. */
  function Yield(results: seq<Analysis>, settings: V3.TierSettings): int
    decreases |results|
  {
    if results == [] then 0
    else
      var t := results[|results| - 1];
      Yield(results[..|results| - 1], settings)
        + (if t.totalWeightedScore >= settings.minScoreThreshold * 10.0 then Min(t.patternCount, settings.maxClipsPerVideo) else 0)
  }

  /** With a non-negative clip cap the estimate lies between 0 and the cap times the
      number of transcripts, and it never exceeds the total number of pattern types. */
  lemma YieldBounds(results: seq<Analysis>, settings: V3.TierSettings)
    requires settings.maxClipsPerVideo >= 0
    ensures 0 <= Yield(results, settings) <= |results| * settings.maxClipsPerVideo
    ensures Yield(results, settings) <= PatternTotal(results)
  {
    YieldCap(results, settings);
    YieldPatterns(results, settings);
  }

  lemma {:induction false} YieldCap(results: seq<Analysis>, settings: V3.TierSettings)
    requires settings.maxClipsPerVideo >= 0
    ensures 0 <= Yield(results, settings) <= |results| * settings.maxClipsPerVideo
    decreases |results|
  {
    if results != [] {
      var n, m := |results|, settings.maxClipsPerVideo;
      YieldCap(results[..n - 1], settings);
      assert (n - 1) * m + m == n * m;
    }
  }

  lemma {:induction false} YieldPatterns(results: seq<Analysis>, settings: V3.TierSettings)
    ensures Yield(results, settings) <= PatternTotal(results)
    decreases |results|
  {
    if results != [] {
      YieldPatterns(results[..|results| - 1], settings);
    }
  }

  function PatternTotal(results: seq<Analysis>): nat
    decreases |results|
  {
    if results == [] then 0 else PatternTotal(results[..|results| - 1]) + results[|results| - 1].patternCount
  }

  /** A transcript below the threshold changes nothing, wherever it stands. */
  lemma {:induction false} YieldAppend(a: seq<Analysis>, b: seq<Analysis>, settings: V3.TierSettings)
    ensures Yield(a + b, settings) == Yield(a, settings) + Yield(b, settings)
    decreases |b|
  {
    if b == [] {
      assert a + b == a;
    } else {
      assert (a + b)[..|a + b| - 1] == a + b[..|b| - 1];
      YieldAppend(a, b[..|b| - 1], settings);
    }
  }

  lemma YieldSkipsLow(a: seq<Analysis>, t: Analysis, b: seq<Analysis>, settings: V3.TierSettings)
    requires t.totalWeightedScore < settings.minScoreThreshold * 10.0
    ensures Yield(a + [t] + b, settings) == Yield(a + b, settings)
  {
    YieldAppend(a + [t], b, settings);
    YieldAppend(a, b, settings);
    YieldAppend(a, [t], settings);
    assert [t][..0] == [];
  }

  method EstimatedYield(results: seq<Analysis>, settings: V3.TierSettings) returns (estimatedClips: int)
    ensures estimatedClips == Yield(results, settings)
  {
    estimatedClips := 0;
    var i := 0;
    while i < |results|
      invariant 0 <= i <= |results|
      invariant estimatedClips == Yield(results[..i], settings)
    {
      assert results[..i + 1][..i] == results[..i];
      var t := results[i];
      if t.totalWeightedScore >= settings.minScoreThreshold * 10.0 {
        estimatedClips := estimatedClips + Min(t.patternCount, settings.maxClipsPerVideo);
      }
      i := i + 1;
    }
    assert results[..i] == results;
  }
}
