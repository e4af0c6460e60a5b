/**
 * The pattern-based clip finder (src/clip_finder_v3.py): channel tiers and their
 * settings, time-windowed scan chunks, validation of the model's pattern matches,
 * hard rejection filters, grouping of nearby matches into candidates, score
 * bonuses, the tier threshold and greedy selection with a minimum gap.
 *
 * The contents of config/channels.json are parameters (the channel list and the
 * tier overrides); each model reply is an input that is already decoded.
 */
module ClipFinderV3 {
  import opened Wrappers
  import opened Seqs
  import opened Text
  import opened Json
  import opened Transcriber
  import opened ClipPatterns

  /** A clip the model reports as matching one pattern. */
  datatype PatternMatch = PatternMatch(
    patternId: string, patternName: string, startTime: real, endTime: real,
    transcriptText: string, speakerName: Option<string>, triggerFound: string,
    score: real, quotableLine: string, whyGood: string)

  /** A group of nearby matches merged into one scored clip. */
  datatype Candidate = Candidate(
    startTime: real, endTime: real, transcriptText: string, speakerName: Option<string>,
    patternsMatched: seq<PatternMatch>, totalScore: real, primaryPattern: string,
    quotableLine: string, whySelected: string)

  function Abs(x: real): real { if x < 0.0 then -x else x }

  // ---------------------------------------------------------------------------
  // Channel tiers

  /** One entry of the "channels" list; an absent key is None. */
  datatype Channel = Channel(name: string, youtubeHandle: Option<string>, tier: Option<string>)

  /** A Python dict from strings to strings: pairs in insertion order. */
  type Table = seq<(string, string)>

  predicate UniqueKeys(d: Table) {
    forall i, j :: 0 <= i < j < |d| ==> d[i].0 != d[j].0
  }

  /** `d[k] = v`: an existing key keeps its position and takes the new value,
      a new key goes last. */
  function DictSet(d: Table, k: string, v: string): (r: Table)
    ensures UniqueKeys(d) ==> UniqueKeys(r)
    ensures |r| == |d| || |r| == |d| + 1
    ensures forall i :: 0 <= i < |d| ==> r[i].0 == d[i].0
    ensures exists i :: 0 <= i < |r| && r[i] == (k, v)
    ensures forall i :: 0 <= i < |r| && r[i].0 != k ==> i < |d| && r[i] == d[i]
  {
    match FirstWhere(d, (e: (string, string)) => e.0 == k)
    case Some(i) => d[i := (k, v)]
    case None => assert (d + [(k, v)])[|d|] == (k, v); d + [(k, v)]
  }

  /** The lookup table `__init__` builds: each channel's lowercased name, then its
      lowercased handle without leading "@" when the handle is a non-empty string,
      both mapped to the channel's tier (default "B"). */
  function BuildChannelTiers(channels: seq<Channel>): (d: Table)
    ensures UniqueKeys(d)
    decreases |channels|
  {
    if channels == [] then []
    else
      var ch := channels[|channels| - 1];
      var tier := ch.tier.GetOr("B");
      var d1 := DictSet(BuildChannelTiers(channels[..|channels| - 1]), Lower(ch.name), tier);
      if ch.youtubeHandle.Some? && ch.youtubeHandle.value != "" then
        DictSet(d1, Lower(StripLeftBy(ch.youtubeHandle.value, c => c == '@')), tier)
      else d1
  }

  /** `key in name_lower or name_lower in key`. */
  predicate PartialMatch(key: string, nameLower: string) {
    Contains(nameLower, key) || Contains(key, nameLower)
  }

  /** `get_channel_tier`: the exact lowercased key, else the first key in table order
      that partially matches, else "B". */
  function GetChannelTier(d: Table, channelName: string): (tier: string)
    ensures forall i :: 0 <= i < |d| && d[i].0 == Lower(channelName) && UniqueKeys(d) ==> tier == d[i].1
    ensures (forall i :: 0 <= i < |d| ==> d[i].0 != Lower(channelName)) ==>
      (forall j :: (0 <= j < |d| && PartialMatch(d[j].0, Lower(channelName)) &&
        forall i :: 0 <= i < j ==> !PartialMatch(d[i].0, Lower(channelName))) ==> tier == d[j].1)
    ensures (forall i :: 0 <= i < |d| ==> d[i].0 != Lower(channelName) && !PartialMatch(d[i].0, Lower(channelName))) ==>
      tier == "B"
  {
    var nameLower := Lower(channelName);
    match FirstWhere(d, (e: (string, string)) => e.0 == nameLower)
    case Some(i) => d[i].1
    case None =>
      match FirstWhere(d, (e: (string, string)) => PartialMatch(e.0, nameLower))
      case Some(j) => d[j].1
      case None => "B"
  }

  // ---------------------------------------------------------------------------
  // Tier settings

  datatype TierSettings = TierSettings(maxClipsPerVideo: int, minScoreThreshold: real, priorityWeight: real)

  /** A "tier_config" entry: the keys it sets. */
  datatype TierOverride = TierOverride(maxClipsPerVideo: Option<int>, minScoreThreshold: Option<real>, priorityWeight: Option<real>)

  /** `defaults.get(tier, defaults["B"])`. */
  function BaseSettings(tier: string): TierSettings {
    if tier == "A" then TierSettings(3, 0.0, 1.5)
    else if tier == "C" then TierSettings(1, 2.0, 0.5)
    else TierSettings(2, 0.0, 1.0)
  }

  /** `get_tier_settings`: the defaults of the tier (B's for an unknown tier),
      overridden key by key by the configured entry. */
  function GetTierSettings(tierConfig: map<string, TierOverride>, tier: string): (s: TierSettings)
    ensures tier !in tierConfig && tier != "A" && tier != "C" ==> s == TierSettings(2, 0.0, 1.0)
    ensures tier !in tierConfig ==> s == BaseSettings(tier)
    ensures tier in tierConfig ==>
      && s.maxClipsPerVideo == tierConfig[tier].maxClipsPerVideo.GetOr(BaseSettings(tier).maxClipsPerVideo)
      && s.minScoreThreshold == tierConfig[tier].minScoreThreshold.GetOr(BaseSettings(tier).minScoreThreshold)
      && s.priorityWeight == tierConfig[tier].priorityWeight.GetOr(BaseSettings(tier).priorityWeight)
  {
    var base := BaseSettings(tier);
    if tier !in tierConfig then base
    else
      var o := tierConfig[tier];
      TierSettings(
        if o.maxClipsPerVideo.Some? then o.maxClipsPerVideo.value else base.maxClipsPerVideo,
        if o.minScoreThreshold.Some? then o.minScoreThreshold.value else base.minScoreThreshold,
        if o.priorityWeight.Some? then o.priorityWeight.value else base.priorityWeight)
  }

  // ---------------------------------------------------------------------------
  // Scan chunks (`_create_scan_chunks`)

  /** One scan window: its start, the end of its last segment, the rendered
      `[start s] text` lines (one decimal) and the segments themselves. */
  datatype ScanChunk = ScanChunk(startTime: real, endTime: real, text: string, segments: seq<Segment>)

  function MakeChunk(startTime: real, segs: seq<Segment>, fmt1: real -> string): (c: ScanChunk)
    requires segs != []
  {
    ScanChunk(startTime, segs[|segs| - 1].end, Join("\n", TimestampedLines(segs, fmt1)), segs)
  }

  /** The loop's state: the chunks saved so far, `chunk_segments` and `chunk_start_time`. */
  datatype Chunker = Chunker(chunks: seq<ScanChunk>, current: seq<Segment>, startTime: real)

  /** One iteration of the loop over the segments. */
  function StepChunker(st: Chunker, seg: Segment, chunkSeconds: real, fmt1: real -> string): Chunker {
    if seg.start - st.startTime > chunkSeconds && st.current != [] then
      var kept := Filter(st.current, StartsFrom(seg.start - 30.0));
      Chunker(st.chunks + [MakeChunk(st.startTime, st.current, fmt1)], kept + [seg],
              if kept != [] then kept[0].start else seg.start)
    else
      st.(current := st.current + [seg])
  }

  /** The loop run over `segs` from the state it starts in. */
  function RunChunker(segs: seq<Segment>, start0: real, chunkSeconds: real, fmt1: real -> string): Chunker
    decreases |segs|
  {
    if segs == [] then Chunker([], [], start0)
    else StepChunker(RunChunker(segs[..|segs| - 1], start0, chunkSeconds, fmt1), segs[|segs| - 1], chunkSeconds, fmt1)
  }

  /** The chunks `_create_scan_chunks` returns. */
  function ScanChunks(segs: seq<Segment>, chunkSeconds: real, fmt1: real -> string): seq<ScanChunk> {
    if segs == [] then []
    else
      var st := RunChunker(segs, segs[0].start, chunkSeconds, fmt1);
      if st.current != [] then st.chunks + [MakeChunk(st.startTime, st.current, fmt1)] else st.chunks
  }

  /** `_create_scan_chunks`. */
  method CreateScanChunks(segments: seq<Segment>, chunkSeconds: real, fmt1: real -> string) returns (chunks: seq<ScanChunk>)
    ensures chunks == ScanChunks(segments, chunkSeconds, fmt1)
  {
    if segments == [] {
      return [];
    }
    chunks := [];
    var chunkStartTime := segments[0].start;
    var chunkSegments: seq<Segment> := [];
    var i := 0;
    while i < |segments|
      invariant 0 <= i <= |segments|
      invariant Chunker(chunks, chunkSegments, chunkStartTime) == RunChunker(segments[..i], segments[0].start, chunkSeconds, fmt1)
    {
      var segment := segments[i];
      ghost var next := StepChunker(Chunker(chunks, chunkSegments, chunkStartTime), segment, chunkSeconds, fmt1);
      assert RunChunker(segments[..i + 1], segments[0].start, chunkSeconds, fmt1) == next by {
        assert segments[..i + 1][..i] == segments[..i];
      }
      if segment.start - chunkStartTime > chunkSeconds && chunkSegments != [] {
        chunks := chunks + [MakeChunk(chunkStartTime, chunkSegments, fmt1)];
        var overlapStart := segment.start - 30.0;
        chunkSegments := Filter(chunkSegments, StartsFrom(overlapStart));
        chunkStartTime := if chunkSegments != [] then chunkSegments[0].start else segment.start;
      }
      chunkSegments := chunkSegments + [segment];
      assert Chunker(chunks, chunkSegments, chunkStartTime) == next;
      i := i + 1;
    }
    assert segments[..i] == segments;
    if chunkSegments != [] {
      chunks := chunks + [MakeChunk(chunkStartTime, chunkSegments, fmt1)];
    }
  }

  /** A chunk is saved exactly when the arriving segment starts more than `chunkSeconds`
      after the chunk's start and the chunk has segments; the next chunk is then seeded
      with those of its segments that start no earlier than 30 s before the arriving
      segment, in order, and starts at the first of them (at the arriving segment when
      there is none). */
  lemma StepChunkerSpec(st: Chunker, seg: Segment, chunkSeconds: real, fmt1: real -> string)
    ensures var r := StepChunker(st, seg, chunkSeconds, fmt1);
      && (|r.chunks| == |st.chunks| + 1 <==> seg.start - st.startTime > chunkSeconds && st.current != [])
      && r.chunks[..|st.chunks|] == st.chunks
      && r.current != [] && r.current[|r.current| - 1] == seg
    ensures var r := StepChunker(st, seg, chunkSeconds, fmt1);
      seg.start - st.startTime > chunkSeconds && st.current != [] ==>
        var seeded := r.current[..|r.current| - 1];
        && r.chunks[|st.chunks|].segments == st.current
        && r.chunks[|st.chunks|].startTime == st.startTime
        && IsSubsequence(seeded, st.current)
        && (forall x :: x in seeded <==> x in st.current && x.start >= seg.start - 30.0)
        && r.startTime == (if seeded != [] then seeded[0].start else seg.start)
  {
    var r := StepChunker(st, seg, chunkSeconds, fmt1);
    if seg.start - st.startTime > chunkSeconds && st.current != [] {
      var kept := Filter(st.current, StartsFrom(seg.start - 30.0));
      assert r.current[..|r.current| - 1] == kept;
      FilterIsSubsequence(st.current, StartsFrom(seg.start - 30.0));
      forall x | x in st.current && x.start >= seg.start - 30.0 ensures x in kept {
        FilterHas(st.current, StartsFrom(seg.start - 30.0), x);
      }
    } else {
      assert r.chunks == st.chunks;
    }
  }

  /** Every saved chunk is non-empty, ends where its last segment ends, and lists
      segments in their transcript order; the open chunk is in order too, and every
      segment seen so far is in a saved chunk or in the open one. */
  ghost predicate ChunkerInvariant(st: Chunker, seen: seq<Segment>) {
    ChunksValid(st.chunks, seen) && IsSubsequence(st.current, seen) && Covered(st, seen)
  }

  ghost predicate ChunksValid(chunks: seq<ScanChunk>, seen: seq<Segment>) {
    forall k :: 0 <= k < |chunks| ==>
      && chunks[k].segments != []
      && chunks[k].endTime == chunks[k].segments[|chunks[k].segments| - 1].end
      && IsSubsequence(chunks[k].segments, seen)
  }

  ghost predicate Covered(st: Chunker, seen: seq<Segment>) {
    forall x :: x in seen ==> x in st.current || exists k :: 0 <= k < |st.chunks| && x in st.chunks[k].segments
  }

  /** Prior chunks stay in order once another segment is seen. */
  lemma ChunksExtend(chunks: seq<ScanChunk>, seen: seq<Segment>, seg: Segment)
    requires forall k :: 0 <= k < |chunks| ==> IsSubsequence(chunks[k].segments, seen)
    ensures forall k :: 0 <= k < |chunks| ==> IsSubsequence(chunks[k].segments, seen + [seg])
  {
    forall k | 0 <= k < |chunks| ensures IsSubsequence(chunks[k].segments, seen + [seg]) {
      SubsequenceExtend(chunks[k].segments, seen, seg);
    }
  }

  lemma StepChunkerKeepsSave(st: Chunker, seen: seq<Segment>, seg: Segment, chunkSeconds: real, fmt1: real -> string)
    requires ChunkerInvariant(st, seen)
    requires seg.start - st.startTime > chunkSeconds && st.current != []
    ensures ChunkerInvariant(StepChunker(st, seg, chunkSeconds, fmt1), seen + [seg])
  {
    var r := StepChunker(st, seg, chunkSeconds, fmt1);
    var seen' := seen + [seg];
    var kept := Filter(st.current, StartsFrom(seg.start - 30.0));
    var c := MakeChunk(st.startTime, st.current, fmt1);
    assert r.chunks == st.chunks + [c] && r.current == kept + [seg];
    assert IsSubsequence(r.current, seen') by {
      FilterIsSubsequence(st.current, StartsFrom(seg.start - 30.0));
      SubsequenceTrans(kept, st.current, seen);
      SubsequenceAppend(kept, seen, seg);
    }
    assert ChunksValid(r.chunks, seen') by {
      SubsequenceExtend(st.current, seen, seg);
      ChunksExtend(st.chunks, seen, seg);
      forall k | 0 <= k < |r.chunks|
        ensures && r.chunks[k].segments != []
                && r.chunks[k].endTime == r.chunks[k].segments[|r.chunks[k].segments| - 1].end
                && IsSubsequence(r.chunks[k].segments, seen')
      {
        if k < |st.chunks| {
          assert r.chunks[k] == st.chunks[k];
        } else {
          assert r.chunks[k] == c;
        }
      }
    }
    assert Covered(r, seen') by {
      forall x | x in seen' ensures x in r.current || exists k :: 0 <= k < |r.chunks| && x in r.chunks[k].segments {
        if x != seg {
          if x in st.current {
            assert r.chunks[|st.chunks|] == c;
          } else {
            var k :| 0 <= k < |st.chunks| && x in st.chunks[k].segments;
            assert r.chunks[k] == st.chunks[k];
          }
        }
      }
    }
  }

  lemma StepChunkerKeepsAppend(st: Chunker, seen: seq<Segment>, seg: Segment, chunkSeconds: real, fmt1: real -> string)
    requires ChunkerInvariant(st, seen)
    requires !(seg.start - st.startTime > chunkSeconds && st.current != [])
    ensures ChunkerInvariant(StepChunker(st, seg, chunkSeconds, fmt1), seen + [seg])
  {
    var r := StepChunker(st, seg, chunkSeconds, fmt1);
    var seen' := seen + [seg];
    assert r.chunks == st.chunks && r.current == st.current + [seg];
    assert IsSubsequence(r.current, seen') by {
      SubsequenceAppend(st.current, seen, seg);
    }
    assert ChunksValid(r.chunks, seen') by {
      ChunksExtend(st.chunks, seen, seg);
    }
    assert Covered(r, seen') by {
      forall x | x in seen' ensures x in r.current || exists k :: 0 <= k < |r.chunks| && x in r.chunks[k].segments {
        if x != seg && x in st.current {
          assert x in r.current;
        }
      }
    }
  }

  lemma StepChunkerKeeps(st: Chunker, seen: seq<Segment>, seg: Segment, chunkSeconds: real, fmt1: real -> string)
    requires ChunkerInvariant(st, seen)
    ensures ChunkerInvariant(StepChunker(st, seg, chunkSeconds, fmt1), seen + [seg])
  {
    if seg.start - st.startTime > chunkSeconds && st.current != [] {
      StepChunkerKeepsSave(st, seen, seg, chunkSeconds, fmt1);
    } else {
      StepChunkerKeepsAppend(st, seen, seg, chunkSeconds, fmt1);
    }
  }

  lemma {:induction false} RunChunkerKeeps(segs: seq<Segment>, start0: real, chunkSeconds: real, fmt1: real -> string)
    ensures ChunkerInvariant(RunChunker(segs, start0, chunkSeconds, fmt1), segs)
    decreases |segs|
  {
    if segs == [] {
      SubsequenceRefl(segs);
    } else {
      var init := segs[..|segs| - 1];
      RunChunkerKeeps(init, start0, chunkSeconds, fmt1);
      assert init + [segs[|segs| - 1]] == segs;
      StepChunkerKeeps(RunChunker(init, start0, chunkSeconds, fmt1), init, segs[|segs| - 1], chunkSeconds, fmt1);
    }
  }

  /** No segments give no chunks; otherwise every chunk is non-empty, ends where its
      last segment ends and lists its segments in transcript order, and every segment
      is in some chunk. */
  lemma ScanChunksSpec(segs: seq<Segment>, chunkSeconds: real, fmt1: real -> string)
    ensures segs == [] <==> ScanChunks(segs, chunkSeconds, fmt1) == []
    ensures var cs := ScanChunks(segs, chunkSeconds, fmt1);
      forall k :: 0 <= k < |cs| ==>
        && cs[k].segments != []
        && cs[k].endTime == cs[k].segments[|cs[k].segments| - 1].end
        && IsSubsequence(cs[k].segments, segs)
    ensures var cs := ScanChunks(segs, chunkSeconds, fmt1);
      forall x :: x in segs ==> exists k :: 0 <= k < |cs| && x in cs[k].segments
  {
    if segs != [] {
      ScanChunksLast(segs, chunkSeconds, fmt1);
      ScanChunksValid(segs, chunkSeconds, fmt1);
      ScanChunksCovered(segs, chunkSeconds, fmt1);
    }
  }

  /** The loop ends with an open chunk, which the function then saves. */
  lemma ScanChunksLast(segs: seq<Segment>, chunkSeconds: real, fmt1: real -> string)
    requires segs != []
    ensures var st := RunChunker(segs, segs[0].start, chunkSeconds, fmt1);
      && st.current != []
      && ScanChunks(segs, chunkSeconds, fmt1) == st.chunks + [MakeChunk(st.startTime, st.current, fmt1)]
  {
    StepChunkerSpec(RunChunker(segs[..|segs| - 1], segs[0].start, chunkSeconds, fmt1), segs[|segs| - 1], chunkSeconds, fmt1);
  }

  lemma ScanChunksValid(segs: seq<Segment>, chunkSeconds: real, fmt1: real -> string)
    requires segs != []
    ensures ChunksValid(ScanChunks(segs, chunkSeconds, fmt1), segs)
  {
    var st := RunChunker(segs, segs[0].start, chunkSeconds, fmt1);
    assert ChunksValid(st.chunks, segs) && IsSubsequence(st.current, segs) by {
      RunChunkerKeeps(segs, segs[0].start, chunkSeconds, fmt1);
    }
    ScanChunksLast(segs, chunkSeconds, fmt1);
    var c := MakeChunk(st.startTime, st.current, fmt1);
    assert ChunksValid(st.chunks + [c], segs) by {
      ChunksValidSnoc(st.chunks, c, segs);
    }
  }

  lemma ChunksValidSnoc(chunks: seq<ScanChunk>, c: ScanChunk, segs: seq<Segment>)
    requires ChunksValid(chunks, segs)
    requires c.segments != [] && c.endTime == c.segments[|c.segments| - 1].end && IsSubsequence(c.segments, segs)
    ensures ChunksValid(chunks + [c], segs)
  {
    var cs := chunks + [c];
    forall k | 0 <= k < |cs|
      ensures && cs[k].segments != []
              && cs[k].endTime == cs[k].segments[|cs[k].segments| - 1].end
              && IsSubsequence(cs[k].segments, segs)
    {
      if k < |chunks| {
        assert cs[k] == chunks[k];
      } else {
        assert cs[k] == c;
      }
    }
  }

  lemma ScanChunksCovered(segs: seq<Segment>, chunkSeconds: real, fmt1: real -> string)
    requires segs != []
    ensures var cs := ScanChunks(segs, chunkSeconds, fmt1);
      forall x :: x in segs ==> exists k :: 0 <= k < |cs| && x in cs[k].segments
  {
    var st := RunChunker(segs, segs[0].start, chunkSeconds, fmt1);
    RunChunkerKeeps(segs, segs[0].start, chunkSeconds, fmt1);
    ScanChunksLast(segs, chunkSeconds, fmt1);
    var c := MakeChunk(st.startTime, st.current, fmt1);
    var cs := st.chunks + [c];
    forall x | x in segs ensures exists k :: 0 <= k < |cs| && x in cs[k].segments {
      if x in st.current {
        assert x in cs[|st.chunks|].segments;
      } else {
        var k :| 0 <= k < |st.chunks| && x in st.chunks[k].segments;
        assert cs[k] == st.chunks[k];
      }
    }
  }

  // ---------------------------------------------------------------------------
  // Pattern names reported by the model

  predicate DirectHit(p: ClipPattern, nameLower: string) {
    Contains(nameLower, p.id) || Contains(nameLower, Lower(p.name))
  }

  predicate WordHit(p: ClipPattern, nameLower: string) {
    exists w :: w in SplitOn(p.id, '_') && Contains(nameLower, w)
  }

  /** The search of `_get_pattern_id` over the pattern table `ps` (CLIP_PATTERNS in
      dictionary order): the first pattern whose id or lowercased name occurs in the
      lowercased name, else the first one with an `_`-separated id word occurring in it. */
  function PatternIndex(ps: seq<ClipPattern>, nameLower: string): (r: Option<nat>)
    ensures r.Some? ==> r.value < |ps|
  {
    match FirstWhere(ps, DirectHitIn(nameLower))
    case Some(k) => Some(k)
    case None =>
      match FirstWhere(ps, WordHitIn(nameLower))
      case Some(k) => Some(k)
      case None => None
  }

  function DirectHitIn(nameLower: string): ClipPattern -> bool { (p: ClipPattern) => DirectHit(p, nameLower) }
  function WordHitIn(nameLower: string): ClipPattern -> bool { (p: ClipPattern) => WordHit(p, nameLower) }

  /** The first direct hit wins; only when there is none does the first word hit win;
      nothing is found iff no pattern hits either way. */
  lemma PatternIndexSpec(ps: seq<ClipPattern>, nameLower: string)
    ensures forall k :: (0 <= k < |ps| && DirectHit(ps[k], nameLower) &&
      forall j :: 0 <= j < k ==> !DirectHit(ps[j], nameLower)) ==> PatternIndex(ps, nameLower) == Some(k)
    ensures (forall j :: 0 <= j < |ps| ==> !DirectHit(ps[j], nameLower)) ==>
      (forall k :: (0 <= k < |ps| && WordHit(ps[k], nameLower) &&
        forall j :: 0 <= j < k ==> !WordHit(ps[j], nameLower)) ==> PatternIndex(ps, nameLower) == Some(k))
    ensures PatternIndex(ps, nameLower).None? <==>
      forall j :: 0 <= j < |ps| ==> !DirectHit(ps[j], nameLower) && !WordHit(ps[j], nameLower)
  {
    forall k | 0 <= k < |ps| && DirectHit(ps[k], nameLower) && forall j :: 0 <= j < k ==> !DirectHit(ps[j], nameLower)
      ensures PatternIndex(ps, nameLower) == Some(k)
    {
      FirstWhereFirst(ps, DirectHitIn(nameLower), k);
    }
    if forall j :: 0 <= j < |ps| ==> !DirectHit(ps[j], nameLower) {
      forall k | 0 <= k < |ps| && WordHit(ps[k], nameLower) && forall j :: 0 <= j < k ==> !WordHit(ps[j], nameLower)
        ensures PatternIndex(ps, nameLower) == Some(k)
      {
        PatternIndexWord(ps, nameLower, k);
      }
    }
  }

  lemma PatternIndexWord(ps: seq<ClipPattern>, nameLower: string, k: nat)
    requires forall j :: 0 <= j < |ps| ==> !DirectHit(ps[j], nameLower)
    requires k < |ps| && WordHit(ps[k], nameLower) && forall j :: 0 <= j < k ==> !WordHit(ps[j], nameLower)
    ensures PatternIndex(ps, nameLower) == Some(k)
  {
    assert FirstWhere(ps, DirectHitIn(nameLower)).None?;
    FirstWhereFirst(ps, WordHitIn(nameLower), k);
  }

  /** `_get_pattern_id`: the id of the pattern the search finds. */
  function GetPatternId(ps: seq<ClipPattern>, patternName: string): (r: Option<string>)
    ensures r.None? <==> PatternIndex(ps, Lower(patternName)).None?
    ensures r.Some? ==> exists k :: 0 <= k < |ps| && ps[k].id == r.value
  {
    match PatternIndex(ps, Lower(patternName))
    case Some(k) => Some(ps[k].id)
    case None => None
  }

  // ---------------------------------------------------------------------------
  // Validation of one chunk's reply (`_scan_chunk_for_patterns`)

  function PatternField(m: map<string, Json>): Json { Get(m, "pattern", JStr("")) }
  function StartField(m: map<string, Json>): Option<real> { AsNumber(Get(m, "start_time", JNum(0.0))) }
  function EndField(m: map<string, Json>): Option<real> { AsNumber(Get(m, "end_time", JNum(0.0))) }

  /** A kept match is well formed: a pattern of the table, its name and weight, and a
      duration in [15, 90]. */
  predicate ValidMatch(ps: seq<ClipPattern>, pm: PatternMatch) {
    && ById(ps, pm.patternId).Some?
    && pm.patternName == ById(ps, pm.patternId).value.name
    && pm.score == ById(ps, pm.patternId).value.weight
    && 15.0 <= pm.endTime - pm.startTime <= 90.0
  }

  /** One element: an unknown pattern is skipped, a duration outside [15, 90] is
      skipped, a kept match scores its pattern's weight; a non-string pattern or a
      non-numeric time raises. */
  function ValidateMatch(ps: seq<ClipPattern>, m: map<string, Json>): (o: Outcome<PatternMatch>)
    ensures o.Crash? <==> (!PatternField(m).JStr? ||
      (GetPatternId(ps, PatternField(m).s).Some? && (StartField(m).None? || EndField(m).None?)))
    ensures PatternField(m).JStr? && GetPatternId(ps, PatternField(m).s).None? ==> o.Skip?
    ensures PatternField(m).JStr? && GetPatternId(ps, PatternField(m).s).Some? && StartField(m).Some? && EndField(m).Some? ==>
      (o.Keep? <==> 15.0 <= EndField(m).value - StartField(m).value <= 90.0)
    ensures o.Keep? ==> ValidMatch(ps, o.value)
    ensures o.Keep? ==> o.value.patternId == GetPatternId(ps, PatternField(m).s).value
    ensures o.Keep? ==> o.value.startTime == StartField(m).value && o.value.endTime == EndField(m).value
  {
    var pattern := PatternField(m);
    if !pattern.JStr? then Crash
    else match GetPatternId(ps, pattern.s)
      case None => Skip
      case Some(pid) =>
        match (StartField(m), EndField(m))
        case (Some(start), Some(end)) =>
          var duration := end - start;
          if duration < 15.0 || duration > 90.0 then Skip
          else
            var p := ById(ps, pid).value;
            Keep(PatternMatch(pid, p.name, start, end,
              TextOr(Get(m, "transcript", JStr("")), ""), OptText(Get(m, "speaker", JNull)),
              TextOr(Get(m, "trigger_phrase", JStr("")), ""), p.weight,
              TextOr(Get(m, "quotable_line", JStr("")), ""), TextOr(Get(m, "why_good", JStr("")), "")))
        case _ => Crash
  }

  /** The matches of a list of elements, or None when some element raises. */
  function ValidateAll(ps: seq<ClipPattern>, items: seq<map<string, Json>>): (r: Option<seq<PatternMatch>>)
    ensures r.Some? ==> forall pm :: pm in r.value ==> ValidMatch(ps, pm)
    decreases |items|
  {
    if items == [] then Some([])
    else match ValidateAll(ps, items[..|items| - 1])
      case None => None
      case Some(acc) =>
        match ValidateMatch(ps, items[|items| - 1])
        case Crash => None
        case Skip => Some(acc)
        case Keep(pm) => Some(acc + [pm])
  }

  /** What a chunk contributes: [] when the call or the decoding failed (`reply` None),
      when the reply is not a dict or when any element raises. */
  function ChunkMatches(ps: seq<ClipPattern>, reply: Option<Json>): (ms: seq<PatternMatch>)
    ensures forall pm :: pm in ms ==> ValidMatch(ps, pm)
  {
    if reply.None? then []
    else match ListField(reply.value, "matches")
      case None => []
      case Some(items) =>
        var r := ValidateAll(ps, items);
        if r.Some? then r.value else []
  }

  /** The validation loop over one decoded reply; it returns [] as soon as an element raises. */
  method ScanChunkMatches(ps: seq<ClipPattern>, reply: Option<Json>) returns (matches: seq<PatternMatch>)
    ensures matches == ChunkMatches(ps, reply)
  {
    if reply.None? {
      return [];
    }
    var items := ListField(reply.value, "matches");
    if items.None? {
      return [];
    }
    matches := [];
    var i := 0;
    while i < |items.value|
      invariant 0 <= i <= |items.value|
      invariant ValidateAll(ps, items.value[..i]) == Some(matches)
    {
      var o := ValidateMatch(ps, items.value[i]);
      assert ValidateAll(ps, items.value[..i + 1])
        == (if o.Crash? then None else if o.Skip? then Some(matches) else Some(matches + [o.value])) by {
        assert items.value[..i + 1][..i] == items.value[..i];
      }
      if o.Crash? {
        CrashPersists(ps, items.value, i + 1);
        return [];
      }
      if o.Keep? {
        matches := matches + [o.value];
      }
      i := i + 1;
    }
    assert items.value[..i] == items.value;
  }

  /** Once an element raises, the whole list yields nothing. */
  lemma {:induction false} CrashPersists(ps: seq<ClipPattern>, items: seq<map<string, Json>>, n: nat)
    requires n <= |items| && ValidateAll(ps, items[..n]).None?
    ensures ValidateAll(ps, items).None?
    decreases |items| - n
  {
    if n < |items| {
      assert items[..n + 1][..n] == items[..n];
      CrashPersists(ps, items, n + 1);
    } else {
      assert items[..n] == items;
    }
  }

  /** `_scan_for_patterns`: the matches of every chunk, in chunk order; `reply` is the
      decoded model reply to a chunk's prompt (None when the call or decoding fails). */
  function ScanForPatterns(ps: seq<ClipPattern>, chunks: seq<ScanChunk>, reply: ScanChunk -> Option<Json>): (ms: seq<PatternMatch>)
    ensures forall pm :: pm in ms ==> ValidMatch(ps, pm)
    decreases |chunks|
  {
    if chunks == [] then []
    else ScanForPatterns(ps, chunks[..|chunks| - 1], reply) + ChunkMatches(ps, reply(chunks[|chunks| - 1]))
  }

  // ---------------------------------------------------------------------------
  // Hard rejection filters

  /** A table lowercased entry by entry (`[x.lower() for x in ...]`). */
  function LowerAll(xs: seq<string>): (r: seq<string>)
    ensures |r| == |xs| && forall i :: 0 <= i < |xs| ==> r[i] == Lower(xs[i])
  {
    seq(|xs|, i requires 0 <= i < |xs| => Lower(xs[i]))
  }

  /** The lowercased tables `__init__` stores in `self.bad_openers` and `self.jargon_terms`. */
  datatype FilterTables = FilterTables(badOpeners: seq<string>, jargonTerms: seq<string>)

  function DefaultTables(): FilterTables {
    FilterTables(LowerAll(BadOpeners), LowerAll(JargonTerms))
  }

  predicate HasBadOpener(t: FilterTables, textLower: string) {
    exists b :: b in t.badOpeners && StartsWith(textLower, b)
  }

  /** `' '.join(text_lower.split()[:50])`. */
  function First50Words(textLower: string): string {
    var ws := Words(textLower);
    Join(" ", if |ws| <= 50 then ws else ws[..50])
  }

  /** The number of jargon terms occurring in the text. */
  function JargonCount(t: FilterTables, text: string): nat {
    |Filter(t.jargonTerms, (j: string) => Contains(text, j))|
  }

  /** The four rejection rules of `_apply_hard_filters`, all of which must pass. */
  predicate PassesHardFilters(t: FilterTables, m: PatternMatch) {
    var textLower := Strip(Lower(m.transcriptText));
    && !HasBadOpener(t, textLower)
    && JargonCount(t, First50Words(textLower)) < 3
    && !EndsWith(Strip(m.transcriptText), "...")
    && |m.quotableLine| >= 20
  }

  /** `PassesHardFilters` as the function value a comprehension filters with. */
  function Passes(t: FilterTables): PatternMatch -> bool {
    (m: PatternMatch) => PassesHardFilters(t, m)
  }

  /** The four checks of the loop body of `_apply_hard_filters` for one match. */
  method CheckHardFilters(t: FilterTables, m: PatternMatch) returns (keep: bool)
    ensures keep == PassesHardFilters(t, m)
  {
    var textLower := Strip(Lower(m.transcriptText));
    var badOpener := HasBadOpener(t, textLower);
    var tooTechnical := JargonCount(t, First50Words(textLower)) >= 3;
    var trailsOff := EndsWith(Strip(m.transcriptText), "...");
    var noQuote := |m.quotableLine| < 20;
    keep := !badOpener && !tooTechnical && !trailsOff && !noQuote;
  }

  /** The matches that pass, in order: `Filter(ms, Passes(t))` written out, so that the
      loop below need not reason through the function value. */
  function HardFiltered(t: FilterTables, ms: seq<PatternMatch>): seq<PatternMatch>
    decreases |ms|
  {
    if ms == [] then []
    else HardFiltered(t, ms[..|ms| - 1]) + (if PassesHardFilters(t, ms[|ms| - 1]) then [ms[|ms| - 1]] else [])
  }

  lemma {:induction false} HardFilteredIsFilter(t: FilterTables, ms: seq<PatternMatch>)
    ensures HardFiltered(t, ms) == Filter(ms, Passes(t))
    decreases |ms|
  {
    if ms != [] {
      HardFilteredIsFilter(t, ms[..|ms| - 1]);
      assert Passes(t)(ms[|ms| - 1]) == PassesHardFilters(t, ms[|ms| - 1]);
    }
  }

  /** `_apply_hard_filters`. */
  method ApplyHardFilters(t: FilterTables, matches: seq<PatternMatch>) returns (filtered: seq<PatternMatch>)
    ensures filtered == Filter(matches, Passes(t))
  {
    filtered := [];
    var i := 0;
    while i < |matches|
      invariant 0 <= i <= |matches|
      invariant filtered == HardFiltered(t, matches[..i])
    {
      assert matches[..i + 1][..i] == matches[..i];
      var m := matches[i];
      var keep := CheckHardFilters(t, m);
      if keep {
        filtered := filtered + [m];
      }
      i := i + 1;
    }
    assert matches[..i] == matches;
    HardFilteredIsFilter(t, matches);
  }

  /** A match survives iff it passes all four rules; survivors keep their order, and
      filtering again removes nothing more. */
  lemma HardFiltersSpec(t: FilterTables, matches: seq<PatternMatch>)
    ensures forall m :: m in Filter(matches, Passes(t)) <==> m in matches && PassesHardFilters(t, m)
    ensures IsSubsequence(Filter(matches, Passes(t)), matches)
    ensures Filter(Filter(matches, Passes(t)), Passes(t)) == Filter(matches, Passes(t))
  {
    forall m | m in matches && PassesHardFilters(t, m)
      ensures m in Filter(matches, Passes(t))
    {
      FilterHas(matches, Passes(t), m);
    }
    FilterIsSubsequence(matches, Passes(t));
    FilterIdempotent(matches, Passes(t));
  }

  // ---------------------------------------------------------------------------
  // Grouping into candidates

  function MatchScore(m: PatternMatch): real { m.score }

  /** The index `max(matches, key=score)` picks: the first maximal score. */
  function BestIndex(g: seq<PatternMatch>): (b: nat)
    requires g != []
    ensures b < |g|
    ensures forall j :: 0 <= j < |g| ==> g[j].score <= g[b].score
    ensures forall j :: 0 <= j < b ==> g[j].score < g[b].score
    decreases |g|
  {
    if |g| == 1 then 0
    else
      var b := BestIndex(g[..|g| - 1]);
      if g[|g| - 1].score > g[b].score then |g| - 1 else b
  }

  function MinStart(g: seq<PatternMatch>): (r: real)
    requires g != []
    ensures forall j :: 0 <= j < |g| ==> r <= g[j].startTime
    ensures exists j :: 0 <= j < |g| && r == g[j].startTime
    decreases |g|
  {
    if |g| == 1 then g[0].startTime
    else
      var r := MinStart(g[..|g| - 1]);
      if g[|g| - 1].startTime < r then g[|g| - 1].startTime else r
  }

  function MaxEnd(g: seq<PatternMatch>): (r: real)
    requires g != []
    ensures forall j :: 0 <= j < |g| ==> g[j].endTime <= r
    ensures exists j :: 0 <= j < |g| && r == g[j].endTime
    decreases |g|
  {
    if |g| == 1 then g[0].endTime
    else
      var r := MaxEnd(g[..|g| - 1]);
      if g[|g| - 1].endTime > r then g[|g| - 1].endTime else r
  }

  /** `_group_to_candidate`. */
  function GroupToCandidate(g: seq<PatternMatch>): (c: Candidate)
    requires g != []
    ensures c.patternsMatched == g
  {
    var best := g[BestIndex(g)];
    Candidate(MinStart(g), MaxEnd(g), best.transcriptText, best.speakerName, g,
              SumBy(g, MatchScore), best.patternName, best.quotableLine, best.whyGood)
  }

  /** A candidate spans from the earliest member start to the latest member end, scores
      the sum of its members' scores, and takes its text, speaker, primary pattern,
      quotable line and reason from the first member with the highest score. */
  lemma GroupToCandidateSpec(g: seq<PatternMatch>, b: nat)
    requires g != [] && b < |g|
    requires forall j :: 0 <= j < |g| ==> g[j].score <= g[b].score
    requires forall j :: 0 <= j < b ==> g[j].score < g[b].score
    ensures var c := GroupToCandidate(g);
      && (forall j :: 0 <= j < |g| ==> c.startTime <= g[j].startTime && g[j].endTime <= c.endTime)
      && (exists j :: 0 <= j < |g| && c.startTime == g[j].startTime)
      && (exists j :: 0 <= j < |g| && c.endTime == g[j].endTime)
      && c.totalScore == SumBy(g, MatchScore)
      && c.primaryPattern == g[b].patternName && c.quotableLine == g[b].quotableLine
      && c.transcriptText == g[b].transcriptText && c.speakerName == g[b].speakerName
      && c.whySelected == g[b].whyGood
  {
    assert BestIndex(g) == b;
  }

  predicate StartsEarlier(a: PatternMatch, b: PatternMatch) { a.startTime < b.startTime }

  /** Consecutive members are less than 30 s apart (start after the previous member's end). */
  predicate Chained(g: seq<PatternMatch>) {
    forall i :: 0 < i < |g| ==> g[i].startTime - g[i - 1].endTime < 30.0
  }

  ghost function Groups(cs: seq<Candidate>): (gs: seq<seq<PatternMatch>>)
    ensures |gs| == |cs| && forall k :: 0 <= k < |cs| ==> gs[k] == cs[k].patternsMatched
  {
    seq(|cs|, k requires 0 <= k < |cs| => cs[k].patternsMatched)
  }

  /** Each candidate is the merge of a non-empty chained group. */
  ghost predicate WellGrouped(cs: seq<Candidate>) {
    forall k :: 0 <= k < |cs| ==>
      cs[k].patternsMatched != [] && Chained(cs[k].patternsMatched) && cs[k] == GroupToCandidate(cs[k].patternsMatched)
  }

  /** Group `g` starts 30 s or more after `prev`'s last member ends. */
  predicate GapBefore(prev: Candidate, g: seq<PatternMatch>) {
    && prev.patternsMatched != [] && g != []
    && g[0].startTime - prev.patternsMatched[|prev.patternsMatched| - 1].endTime >= 30.0
  }

  /** `next`'s first member starts 30 s or more after `prev`'s last member ends. */
  predicate FarAfter(prev: Candidate, next: Candidate) {
    GapBefore(prev, next.patternsMatched)
  }

  ghost predicate Separated(cs: seq<Candidate>) {
    forall k :: 0 < k < |cs| ==> FarAfter(cs[k - 1], cs[k])
  }

  /** What the grouping loop keeps: the closed candidates and the open group. */
  ghost predicate GroupingState(candidates: seq<Candidate>, group: seq<PatternMatch>) {
    && group != [] && Chained(group)
    && WellGrouped(candidates) && Separated(candidates)
    && (candidates != [] ==> GapBefore(candidates[|candidates| - 1], group))
  }

  /** What the grouping loop keeps, with `prefix` the matches consumed so far. */
  ghost predicate Grouping(candidates: seq<Candidate>, group: seq<PatternMatch>, prefix: seq<PatternMatch>) {
    GroupingState(candidates, group) && Flatten(Groups(candidates)) + group == prefix
  }

  /** A match less than 30 s after the open group's last member joins the group. */
  lemma ExtendGroup(candidates: seq<Candidate>, group: seq<PatternMatch>, prefix: seq<PatternMatch>, m: PatternMatch)
    requires Grouping(candidates, group, prefix)
    requires m.startTime - group[|group| - 1].endTime < 30.0
    ensures Grouping(candidates, group + [m], prefix + [m])
  {
    var g := group + [m];
    forall i | 0 < i < |g| ensures g[i].startTime - g[i - 1].endTime < 30.0 {
      if i < |group| {
        assert g[i] == group[i] && g[i - 1] == group[i - 1];
      }
    }
  }

  lemma WellGroupedAppend(candidates: seq<Candidate>, group: seq<PatternMatch>)
    requires WellGrouped(candidates) && group != [] && Chained(group)
    ensures WellGrouped(candidates + [GroupToCandidate(group)])
  {
    var cs := candidates + [GroupToCandidate(group)];
    forall k | 0 <= k < |cs|
      ensures cs[k].patternsMatched != [] && Chained(cs[k].patternsMatched) && cs[k] == GroupToCandidate(cs[k].patternsMatched)
    {
      if k < |candidates| {
        assert cs[k] == candidates[k];
      }
    }
  }

  lemma SeparatedAppend(candidates: seq<Candidate>, c: Candidate)
    requires Separated(candidates)
    requires candidates != [] ==> FarAfter(candidates[|candidates| - 1], c)
    ensures Separated(candidates + [c])
  {
    var cs := candidates + [c];
    forall k | 0 < k < |cs| ensures FarAfter(cs[k - 1], cs[k]) {
      if k < |candidates| {
        assert cs[k - 1] == candidates[k - 1] && cs[k] == candidates[k];
      }
    }
  }

  /** Closing the open group keeps the candidates well grouped and separated, and their
      groups then make up the consumed prefix. */
  lemma CloseGroup(candidates: seq<Candidate>, group: seq<PatternMatch>, prefix: seq<PatternMatch>)
    requires Grouping(candidates, group, prefix)
    ensures CutInto(candidates + [GroupToCandidate(group)], prefix)
  {
    var c := GroupToCandidate(group);
    var cs := candidates + [c];
    WellGroupedAppend(candidates, group);
    SeparatedAppend(candidates, c);
    GroupsAppend(candidates, c);
  }

  /** A match 30 s or more after the open group's last member closes it and opens a new group. */
  lemma StartGroup(candidates: seq<Candidate>, group: seq<PatternMatch>, prefix: seq<PatternMatch>, m: PatternMatch)
    requires Grouping(candidates, group, prefix)
    requires m.startTime - group[|group| - 1].endTime >= 30.0
    ensures Grouping(candidates + [GroupToCandidate(group)], [m], prefix + [m])
  {
    CloseGroup(candidates, group, prefix);
  }

  lemma GroupsAppend(cs: seq<Candidate>, c: Candidate)
    ensures Flatten(Groups(cs + [c])) == Flatten(Groups(cs)) + c.patternsMatched
  {
    assert Groups(cs + [c]) == Groups(cs) + [c.patternsMatched];
    FlattenAppend(Groups(cs), c.patternsMatched);
  }

  /** `candidates` cut `sorted` into chained groups, a new group starting exactly where a
      match starts 30 s or more after the previous match's end. */
  ghost predicate CutInto(candidates: seq<Candidate>, sorted: seq<PatternMatch>) {
    Flatten(Groups(candidates)) == sorted && WellGrouped(candidates) && Separated(candidates)
  }

  /** The grouping loop of `_create_candidates`, over matches already sorted by start. */
  method CutGroups(sorted: seq<PatternMatch>) returns (candidates: seq<Candidate>)
    requires sorted != []
    ensures CutInto(candidates, sorted)
  {
    candidates := [];
    var group := [sorted[0]];
    var i := 1;
    assert sorted[..1] == [sorted[0]];
    while i < |sorted|
      invariant 1 <= i <= |sorted|
      invariant Grouping(candidates, group, sorted[..i])
    {
      var m := sorted[i];
      assert sorted[..i + 1] == sorted[..i] + [m];
      if m.startTime - group[|group| - 1].endTime < 30.0 {
        ExtendGroup(candidates, group, sorted[..i], m);
        group := group + [m];
      } else {
        StartGroup(candidates, group, sorted[..i], m);
        candidates := candidates + [GroupToCandidate(group)];
        group := [m];
      }
      i := i + 1;
    }
    assert sorted[..i] == sorted;
    CloseGroup(candidates, group, sorted);
    candidates := candidates + [GroupToCandidate(group)];
  }

  /** `_create_candidates`: the matches sorted by start time (stably) and cut into groups. */
  method CreateCandidates(matches: seq<PatternMatch>) returns (candidates: seq<Candidate>)
    ensures matches == [] ==> candidates == []
    ensures CutInto(candidates, SortBy(matches, StartsEarlier))
  {
    if matches == [] {
      return [];
    }
    var sorted := SortBy(matches, StartsEarlier);
    candidates := CutGroups(sorted);
  }

  // ---------------------------------------------------------------------------
  // Score bonuses and ranking

  /** One candidate's bonuses as `_score_candidates` applies them, `elif` included. */
  function ApplyBonuses(c: Candidate): Candidate {
    var s1 := if |c.patternsMatched| > 1 then c.totalScore * 1.2 else c.totalScore;
    var duration := c.endTime - c.startTime;
    var s2 := if duration <= 45.0 then s1 * 1.1 else if duration <= 30.0 then s1 * 1.2 else s1;
    var s3 := if HasDigit(c.transcriptText) then s2 * 1.05 else s2;
    c.(totalScore := s3)
  }

  /** The score is multiplied by 1.2 iff the candidate has more than one member match,
      by 1.1 iff it lasts at most 45 s (the 1.2 branch for 30 s never applies), and by
      1.05 iff its text has a digit; nothing else changes. */
  lemma BonusFactors(c: Candidate)
    ensures ApplyBonuses(c) == c.(totalScore := ApplyBonuses(c).totalScore)
    ensures ApplyBonuses(c).totalScore ==
      c.totalScore
      * (if |c.patternsMatched| > 1 then 1.2 else 1.0)
      * (if c.endTime - c.startTime <= 45.0 then 1.1 else 1.0)
      * (if HasDigit(c.transcriptText) then 1.05 else 1.0)
  {
  }

  function Bonused(cs: seq<Candidate>): (r: seq<Candidate>)
    ensures |r| == |cs| && forall i :: 0 <= i < |cs| ==> r[i] == ApplyBonuses(cs[i])
  {
    seq(|cs|, i requires 0 <= i < |cs| => ApplyBonuses(cs[i]))
  }

  predicate ScoresHigher(a: Candidate, b: Candidate) { a.totalScore > b.totalScore }

  lemma ScoresHigherStrict()
    ensures StrictOrder(ScoresHigher)
  {
  }

  /** `_score_candidates`: bonuses applied to every candidate, then a stable sort by
      score, highest first. */
  method ScoreCandidates(candidates: seq<Candidate>) returns (scored: seq<Candidate>)
    ensures scored == SortBy(Bonused(candidates), ScoresHigher)
    ensures Ordered(scored, ScoresHigher)
    ensures multiset(scored) == multiset(Bonused(candidates))
  {
    var updated: seq<Candidate> := [];
    var i := 0;
    while i < |candidates|
      invariant 0 <= i <= |candidates|
      invariant |updated| == i && forall k :: 0 <= k < i ==> updated[k] == ApplyBonuses(candidates[k])
    {
      var c := candidates[i];
      var score := c.totalScore;
      if |c.patternsMatched| > 1 {
        score := score * 1.2;
      }
      var duration := c.endTime - c.startTime;
      if duration <= 45.0 {
        score := score * 1.1;
      } else if duration <= 30.0 {
        score := score * 1.2;
      }
      if HasDigit(c.transcriptText) {
        score := score * 1.05;
      }
      updated := updated + [c.(totalScore := score)];
      i := i + 1;
    }
    assert updated == Bonused(candidates);
    scored := SortBy(updated, ScoresHigher);
    ScoresHigherStrict();
    SortByOrdered(updated, ScoresHigher);
  }

  // ---------------------------------------------------------------------------
  // Tier threshold (step 5 of `find_clips`)

  function AtLeast(minScore: real): Candidate -> bool {
    (c: Candidate) => c.totalScore >= minScore
  }

  /** Step 5 of `find_clips`. */
  function ApplyThreshold(scored: seq<Candidate>, minScore: real): seq<Candidate> {
    if minScore > 0.0 then Filter(scored, AtLeast(minScore)) else scored
  }

  /** A threshold of 0 or less keeps everything; a positive one keeps exactly the
      candidates scoring at least the threshold, in order. */
  lemma ThresholdSpec(scored: seq<Candidate>, minScore: real)
    ensures minScore <= 0.0 ==> ApplyThreshold(scored, minScore) == scored
    ensures forall c :: c in ApplyThreshold(scored, minScore) <==> c in scored && (minScore <= 0.0 || c.totalScore >= minScore)
    ensures IsSubsequence(ApplyThreshold(scored, minScore), scored)
  {
    if minScore > 0.0 {
      forall c | c in scored && c.totalScore >= minScore
        ensures c in ApplyThreshold(scored, minScore)
      {
        FilterHas(scored, AtLeast(minScore), c);
      }
      FilterIsSubsequence(scored, AtLeast(minScore));
    } else {
      SubsequenceRefl(scored);
    }
  }

  // ---------------------------------------------------------------------------
  // Diversity selection

  predicate FarFromAll(c: Candidate, selected: seq<Candidate>, minGap: real) {
    forall k :: 0 <= k < |selected| ==> Abs(c.startTime - selected[k].startTime) >= minGap
  }

  /** The reference selection: walk the candidates in order and take one while fewer
      than `maxClips` are taken and it starts at least `minGap` from every taken one. */
  function Greedy(cs: seq<Candidate>, minGap: real, maxClips: int): seq<Candidate>
    decreases |cs|
  {
    if cs == [] then []
    else
      var sel := Greedy(cs[..|cs| - 1], minGap, maxClips);
      var c := cs[|cs| - 1];
      if |sel| < maxClips && FarFromAll(c, sel, minGap) then sel + [c] else sel
  }

  predicate PairwiseApart(sel: seq<Candidate>, minGap: real) {
    forall i, j :: 0 <= i < j < |sel| ==> Abs(sel[i].startTime - sel[j].startTime) >= minGap
  }

  /** The selection holds at most `maxClips` candidates (none when it is not positive),
      pairwise at least `minGap` apart, in input order. */
  lemma GreedySpec(cs: seq<Candidate>, minGap: real, maxClips: int)
    ensures |Greedy(cs, minGap, maxClips)| <= (if maxClips < 0 then 0 else maxClips)
    ensures PairwiseApart(Greedy(cs, minGap, maxClips), minGap)
    ensures IsSubsequence(Greedy(cs, minGap, maxClips), cs)
  {
    GreedySize(cs, minGap, maxClips);
    GreedyApart(cs, minGap, maxClips);
    GreedySubsequence(cs, minGap, maxClips);
  }

  lemma {:induction false} GreedySize(cs: seq<Candidate>, minGap: real, maxClips: int)
    ensures |Greedy(cs, minGap, maxClips)| <= (if maxClips < 0 then 0 else maxClips)
    decreases |cs|
  {
    if cs != [] {
      GreedySize(cs[..|cs| - 1], minGap, maxClips);
    }
  }

  lemma {:induction false} GreedyApart(cs: seq<Candidate>, minGap: real, maxClips: int)
    ensures PairwiseApart(Greedy(cs, minGap, maxClips), minGap)
    decreases |cs|
  {
    if cs != [] {
      var init := cs[..|cs| - 1];
      var c := cs[|cs| - 1];
      GreedyApart(init, minGap, maxClips);
      var sel := Greedy(init, minGap, maxClips);
      if |sel| < maxClips && FarFromAll(c, sel, minGap) {
        var r := sel + [c];
        assert Greedy(cs, minGap, maxClips) == r;
        forall i, j | 0 <= i < j < |r| ensures Abs(r[i].startTime - r[j].startTime) >= minGap {
          if j == |sel| {
            assert Abs(c.startTime - sel[i].startTime) >= minGap;
          } else {
            assert r[i] == sel[i] && r[j] == sel[j];
          }
        }
      }
    }
  }

  lemma {:induction false} GreedySubsequence(cs: seq<Candidate>, minGap: real, maxClips: int)
    ensures IsSubsequence(Greedy(cs, minGap, maxClips), cs)
    decreases |cs|
  {
    if cs != [] {
      var init := cs[..|cs| - 1];
      var c := cs[|cs| - 1];
      GreedySubsequence(init, minGap, maxClips);
      var sel := Greedy(init, minGap, maxClips);
      assert init + [c] == cs;
      if |sel| < maxClips && FarFromAll(c, sel, minGap) {
        SubsequenceAppend(sel, init, c);
      } else {
        SubsequenceExtend(sel, init, c);
      }
    }
  }

  /** Once `maxClips` candidates are taken, later candidates change nothing. */
  lemma {:induction false} GreedySaturated(cs: seq<Candidate>, n: nat, minGap: real, maxClips: int)
    requires n <= |cs| && |Greedy(cs[..n], minGap, maxClips)| >= maxClips
    ensures Greedy(cs, minGap, maxClips) == Greedy(cs[..n], minGap, maxClips)
    decreases |cs| - n
  {
    if n < |cs| {
      assert cs[..n + 1][..n] == cs[..n];
      GreedySaturated(cs, n + 1, minGap, maxClips);
    } else {
      assert cs[..n] == cs;
    }
  }

  /** `_apply_diversity_constraints`, both acceptance branches included: it selects
      exactly what `Greedy` selects, so the pattern comparison never matters. */
  method ApplyDiversityConstraints(candidates: seq<Candidate>, minGapSeconds: real, maxClips: int)
    returns (selected: seq<Candidate>)
    ensures selected == Greedy(candidates, minGapSeconds, maxClips)
  {
    if candidates == [] {
      return [];
    }
    selected := [];
    var i := 0;
    while i < |candidates|
      invariant 0 <= i <= |candidates|
      invariant selected == Greedy(candidates[..i], minGapSeconds, maxClips)
    {
      assert candidates[..i + 1][..i] == candidates[..i];
      if |selected| >= maxClips {
        GreedySaturated(candidates, i, minGapSeconds, maxClips);
        return;
      }
      var c := candidates[i];
      var tooClose := !FarFromAll(c, selected, minGapSeconds);
      var samePattern := exists k :: 0 <= k < |selected| && c.primaryPattern == selected[k].primaryPattern;
      if !tooClose && !samePattern {
        selected := selected + [c];
      } else if !tooClose && |selected| < maxClips {
        selected := selected + [c];
      }
      i := i + 1;
    }
    assert candidates[..i] == candidates;
  }

  // ---------------------------------------------------------------------------
  // Review text

  /** `[m.pattern_name for m in candidate.patterns_matched]`. */
  function PatternNames(ms: seq<PatternMatch>): (names: seq<string>)
    ensures |names| == |ms|
    ensures forall i :: 0 <= i < |ms| ==> names[i] == ms[i].patternName
  {
    seq(|ms|, i requires 0 <= i < |ms| => ms[i].patternName)
  }

  /** The lines of `format_candidate_for_review`; `fmt1` and `fmt0` render a float with
      one and with no decimal. */
  function ReviewLines(c: Candidate, fmt1: real -> string, fmt0: real -> string): (lines: seq<string>)
    ensures |lines| == if |c.patternsMatched| > 1 then 9 else 8
    ensures lines[5] == "\"" + c.quotableLine + "\""
    ensures lines[1] == "\U{1F3AF} Pattern: " + c.primaryPattern
    ensures |c.patternsMatched| > 1 ==> lines[8] == "\U{1F525} Multiple patterns: " + Join(", ", PatternNames(c.patternsMatched))
  {
    var duration := c.endTime - c.startTime;
    var lines := [
      "\U{2B50} Score: " + fmt1(c.totalScore),
      "\U{1F3AF} Pattern: " + c.primaryPattern,
      "\U{23F1} " + fmt0(c.startTime) + "s - " + fmt0(c.endTime) + "s (" + fmt0(duration) + "s)",
      "",
      "\U{1F4AC} Quotable:",
      "\"" + c.quotableLine + "\"",
      "",
      "\U{1F4DD} Why good: " + c.whySelected
    ];
    if |c.patternsMatched| > 1 then
      lines + ["\U{1F525} Multiple patterns: " + Join(", ", PatternNames(c.patternsMatched))]
    else lines
  }

  function FormatCandidateForReview(c: Candidate, fmt1: real -> string, fmt0: real -> string): string {
    Join("\n", ReviewLines(c, fmt1, fmt0))
  }

  lemma NoNewlineAt(c: Candidate, fmt1: real -> string, fmt0: real -> string, k: nat)
    requires '\n' !in fmt1(c.totalScore) && '\n' !in fmt0(c.startTime) && '\n' !in fmt0(c.endTime)
    requires '\n' !in fmt0(c.endTime - c.startTime)
    requires '\n' !in c.primaryPattern && '\n' !in c.quotableLine && '\n' !in c.whySelected
    requires '\n' !in Join(", ", PatternNames(c.patternsMatched))
    requires k < |ReviewLines(c, fmt1, fmt0)|
    ensures '\n' !in ReviewLines(c, fmt1, fmt0)[k]
  {
    var lines := ReviewLines(c, fmt1, fmt0);
    if k == 0 {
      assert lines[0] == "\U{2B50} Score: " + fmt1(c.totalScore);
    } else if k == 2 {
      assert lines[2] == "\U{23F1} " + fmt0(c.startTime) + "s - " + fmt0(c.endTime) + "s (" + fmt0(c.endTime - c.startTime) + "s)";
    } else if k == 7 {
      assert lines[7] == "\U{1F4DD} Why good: " + c.whySelected;
    }
  }

  /** When no field and no rendered number holds a newline, the review message reads
      back, line by line, as the score, the pattern, the window, a blank line, the
      "Quotable:" header, the quoted line, a blank line and the reason, plus the list of
      pattern names exactly when more than one pattern matched. */
  lemma ReviewTextLines(c: Candidate, fmt1: real -> string, fmt0: real -> string)
    requires '\n' !in fmt1(c.totalScore) && '\n' !in fmt0(c.startTime) && '\n' !in fmt0(c.endTime)
    requires '\n' !in fmt0(c.endTime - c.startTime)
    requires '\n' !in c.primaryPattern && '\n' !in c.quotableLine && '\n' !in c.whySelected
    requires forall k :: 0 <= k < |c.patternsMatched| ==> '\n' !in c.patternsMatched[k].patternName
    ensures var lines := SplitOn(FormatCandidateForReview(c, fmt1, fmt0), '\n');
      && lines == ReviewLines(c, fmt1, fmt0)
      && |lines| == (if |c.patternsMatched| > 1 then 9 else 8)
      && lines[0] == "\U{2B50} Score: " + fmt1(c.totalScore)
      && lines[1] == "\U{1F3AF} Pattern: " + c.primaryPattern
      && lines[3] == "" && lines[6] == ""
      && lines[5] == "\"" + c.quotableLine + "\""
      && lines[7] == "\U{1F4DD} Why good: " + c.whySelected
      && (|c.patternsMatched| > 1 ==> lines[8] == "\U{1F525} Multiple patterns: " + Join(", ", PatternNames(c.patternsMatched)))
  {
    var lines := ReviewLines(c, fmt1, fmt0);
    JoinExcludes(", ", PatternNames(c.patternsMatched), '\n');
    forall k | 0 <= k < |lines| ensures '\n' !in lines[k] {
      NoNewlineAt(c, fmt1, fmt0, k);
    }
    SplitJoin(lines, '\n');
  }

  // ---------------------------------------------------------------------------
  // The finder and `find_clips`

  /** What `__init__` stores: the pattern table, the lowercased filter tables, the
      channel lookup table and the tier overrides of config/channels.json. */
  datatype Finder = Finder(patterns: seq<ClipPattern>, tables: FilterTables, channelTiers: Table,
                           tierConfig: map<string, TierOverride>)

  function NewFinder(channels: seq<Channel>, tierConfig: map<string, TierOverride>): (f: Finder)
    ensures UniqueKeys(f.channelTiers)
  {
    Finder(Catalog, DefaultTables(), BuildChannelTiers(channels), tierConfig)
  }

  /** The loop of `_scan_for_patterns`, one reply per chunk. */
  method ScanAllChunks(ps: seq<ClipPattern>, chunks: seq<ScanChunk>, reply: ScanChunk -> Option<Json>)
    returns (allMatches: seq<PatternMatch>)
    ensures allMatches == ScanForPatterns(ps, chunks, reply)
  {
    allMatches := [];
    var i := 0;
    while i < |chunks|
      invariant 0 <= i <= |chunks|
      invariant allMatches == ScanForPatterns(ps, chunks[..i], reply)
    {
      assert chunks[..i + 1][..i] == chunks[..i];
      var matches := ScanChunkMatches(ps, reply(chunks[i]));
      allMatches := allMatches + matches;
      i := i + 1;
    }
    assert chunks[..i] == chunks;
  }

  /** Every candidate merges a non-empty group of matches, each taken from `raw`
      and passing the hard filters. */
  ghost predicate FromMatches(cs: seq<Candidate>, raw: seq<PatternMatch>, t: FilterTables) {
    forall c :: c in cs ==>
      c.patternsMatched != [] && forall m :: m in c.patternsMatched ==> m in raw && PassesHardFilters(t, m)
  }

  /** A member of some candidate's group is one of the grouped matches. */
  lemma GroupMembers(cs: seq<Candidate>, sorted: seq<PatternMatch>)
    requires Flatten(Groups(cs)) == sorted
    ensures forall c, m :: c in cs && m in c.patternsMatched ==> m in sorted
  {
    forall c, m | c in cs && m in c.patternsMatched ensures m in sorted {
      var k :| 0 <= k < |cs| && cs[k] == c;
      FlattenMember(Groups(cs), k, m);
    }
  }

  lemma WellGroupedNonEmpty(cs: seq<Candidate>)
    requires WellGrouped(cs)
    ensures forall c :: c in cs ==> c.patternsMatched != []
  {
    forall c | c in cs ensures c.patternsMatched != [] {
      var k :| 0 <= k < |cs| && cs[k] == c;
    }
  }

  /** Grouping filtered matches yields candidates made of those matches. */
  lemma CandidatesFromMatches(cs: seq<Candidate>, raw: seq<PatternMatch>, t: FilterTables)
    requires CutInto(cs, SortBy(Filter(raw, Passes(t)), StartsEarlier))
    ensures FromMatches(cs, raw, t)
  {
    var filtered := Filter(raw, Passes(t));
    var sorted := SortBy(filtered, StartsEarlier);
    GroupMembers(cs, sorted);
    WellGroupedNonEmpty(cs);
    forall m | m in sorted ensures m in raw && PassesHardFilters(t, m) {
      assert m in multiset(sorted);
      assert m in filtered;
    }
  }

  /** Bonuses, sorting, filtering and selecting keep every candidate's matches. */
  lemma ScoredFromMatches(cs: seq<Candidate>, raw: seq<PatternMatch>, t: FilterTables)
    requires FromMatches(cs, raw, t)
    ensures FromMatches(SortBy(Bonused(cs), ScoresHigher), raw, t)
  {
    forall c | c in SortBy(Bonused(cs), ScoresHigher)
      ensures c.patternsMatched != [] && forall m :: m in c.patternsMatched ==> m in raw && PassesHardFilters(t, m)
    {
      assert c in multiset(SortBy(Bonused(cs), ScoresHigher));
      assert c in Bonused(cs);
      var k :| 0 <= k < |cs| && Bonused(cs)[k] == c;
      assert cs[k] in cs;
    }
  }

  lemma SubsequenceFromMatches(a: seq<Candidate>, b: seq<Candidate>, raw: seq<PatternMatch>, t: FilterTables)
    requires IsSubsequence(a, b) && FromMatches(b, raw, t)
    ensures FromMatches(a, raw, t)
  {
    SubsequenceMembers(a, b);
  }

  /** `find_clips`: the channel's tier settings, the scan, hard filters, grouping,
      scoring, the tier threshold when it is positive, and selection 300 s apart.
      `fmt1` renders the chunk timestamps. */
  method FindClips(f: Finder, transcript: Transcript, channelName: string,
                   reply: ScanChunk -> Option<Json>, fmt1: real -> string)
    returns (final: seq<Candidate>)
    ensures ScanForPatterns(f.patterns, ScanChunks(transcript.segments, 120.0, fmt1), reply) == [] ==> final == []
    ensures var settings := GetTierSettings(f.tierConfig, GetChannelTier(f.channelTiers, channelName));
      && |final| <= (if settings.maxClipsPerVideo < 0 then 0 else settings.maxClipsPerVideo)
      && (settings.minScoreThreshold > 0.0 ==> forall c :: c in final ==> c.totalScore >= settings.minScoreThreshold)
    ensures PairwiseApart(final, 300.0)
    ensures Ordered(final, ScoresHigher)
    ensures FromMatches(final, ScanForPatterns(f.patterns, ScanChunks(transcript.segments, 120.0, fmt1), reply), f.tables)
  {
    var tier := GetChannelTier(f.channelTiers, channelName);
    var tierSettings := GetTierSettings(f.tierConfig, tier);
    var maxClips := tierSettings.maxClipsPerVideo;
    var minScore := tierSettings.minScoreThreshold;

    var chunks := CreateScanChunks(transcript.segments, 120.0, fmt1);
    var rawMatches := ScanAllChunks(f.patterns, chunks, reply);
    if rawMatches == [] {
      return [];
    }

    var filteredMatches := ApplyHardFilters(f.tables, rawMatches);
    if filteredMatches == [] {
      return [];
    }

    var candidates := CreateCandidates(filteredMatches);
    CandidatesFromMatches(candidates, rawMatches, f.tables);
    var scored := ScoreCandidates(candidates);
    ScoredFromMatches(candidates, rawMatches, f.tables);

    ThresholdSpec(scored, minScore);
    if minScore > 0.0 {
      scored := Filter(scored, AtLeast(minScore));
    }
    assert scored == ApplyThreshold(SortBy(Bonused(candidates), ScoresHigher), minScore);

    final := ApplyDiversityConstraints(scored, 300.0, maxClips);
    GreedySpec(scored, 300.0, maxClips);
    SubsequenceTrans(final, scored, SortBy(Bonused(candidates), ScoresHigher));
    SubsequenceOrdered(final, SortBy(Bonused(candidates), ScoresHigher), ScoresHigher);
    SubsequenceFromMatches(final, SortBy(Bonused(candidates), ScoresHigher), rawMatches, f.tables);
    SubsequenceMembers(final, scored);
  }
}
