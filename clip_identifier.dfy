/**
 * The older clip identifier (src/clip_identifier.py): the transcript is cut into
 * character-budgeted chunks that start with one line of overlap, each chunk's reply
 * yields clips no longer than the configured maximum, overlapping clips of the same
 * video are deduplicated keeping the higher score, and the result is sorted by score.
 *
 * The model's reply for a chunk is `chat(prompt(chunk text))` (None where the call
 * raises); `json.loads` is the parameter `loads`; `fmt1` renders a time with one
 * decimal. The voice profile and the prompt wording are not part of this model.
 */
module ClipIdentifier {
  import opened Wrappers
  import opened Seqs
  import opened Text
  import opened Json
  import opened Transcriber

  /** `MAX_CLIP_DURATION_SECONDS` when the environment does not set it. */
  const DefaultMaxClipDuration: real := 120.0

  datatype IdentifiedClip = IdentifiedClip(
    startTime: real, endTime: real, transcriptText: string, speakerName: Option<string>,
    clipType: string, valueReason: string, score: real, videoId: string, channelName: string,
    channelXHandle: Option<string>, videoTitle: string, publishedAt: Option<string>, videoUrl: Option<string>)

  // ---------------------------------------------------------------------------
  // Chunks (`_split_transcript_into_chunks`)

  /** One chunk and the time it is said to start at. */
  datatype TextChunk = TextChunk(text: string, startTime: real)

  /** `f"[{segment.start:.1f}s] {segment.text}\n"`. */
  function SegmentLine(seg: Segment, fmt1: real -> string): (line: string)
    ensures line != [] && line[0] == '['
  {
    "[" + fmt1(seg.start) + "s] " + seg.text + "\n"
  }

  /** The overlap prefix: the line of the segment just before the first segment that
      starts at `t` or later (of the last segment if none does), or "" when the very
      first segment already does. */
  function OverlapText(all: seq<Segment>, t: real, fmt1: real -> string): string {
    match FirstWhere(all, StartsFrom(t))
    case None => if all == [] then "" else SegmentLine(all[|all| - 1], fmt1)
    case Some(k) => if k == 0 then "" else SegmentLine(all[k - 1], fmt1)
  }

  /** The overlap scan stopped at `j`: every earlier segment starts before `t`. */
  lemma OverlapTextAt(all: seq<Segment>, t: real, fmt1: real -> string, j: nat)
    requires j <= |all| && (forall k :: 0 <= k < j ==> all[k].start < t)
    requires j < |all| ==> all[j].start >= t
    ensures OverlapText(all, t, fmt1) == if j == 0 then "" else SegmentLine(all[j - 1], fmt1)
  {
    match FirstWhere(all, StartsFrom(t))
    case None =>
    case Some(k) =>
      assert !StartsFrom(t)(all[k]) ==> k < j;
  }

  /** The loop's state: the saved chunks, `current_chunk` and `chunk_start_time`. */
  datatype Splitter = Splitter(chunks: seq<TextChunk>, current: string, startTime: real)

  /** One segment: a line that would overflow `chunkSize` flushes the current chunk (if
      any) and starts a new one at this segment, prefixed by the overlap line;
      otherwise the line is appended, and an empty chunk takes this segment's start. */
  function SplitStep(st: Splitter, all: seq<Segment>, seg: Segment, chunkSize: int, fmt1: real -> string): Splitter {
    var line := SegmentLine(seg, fmt1);
    if |st.current| + |line| > chunkSize then
      Splitter(if st.current != "" then st.chunks + [TextChunk(st.current, st.startTime)] else st.chunks,
               OverlapText(all, seg.start - 30.0, fmt1) + line, seg.start)
    else
      Splitter(st.chunks, st.current + line, if st.current == "" then seg.start else st.startTime)
  }

  /** The state after the first `n` segments of the transcript `all`. */
  function RunSplitter(all: seq<Segment>, n: nat, chunkSize: int, fmt1: real -> string): Splitter
    requires n <= |all|
  {
    if n == 0 then Splitter([], "", 0.0)
    else SplitStep(RunSplitter(all, n - 1, chunkSize, fmt1), all, all[n - 1], chunkSize, fmt1)
  }

  /** The chunks, the last one included when it is not empty. */
  function SplitChunks(all: seq<Segment>, chunkSize: int, fmt1: real -> string): seq<TextChunk> {
    var st := RunSplitter(all, |all|, chunkSize, fmt1);
    if st.current != "" then st.chunks + [TextChunk(st.current, st.startTime)] else st.chunks
  }

  /** Every line seen so far is in a saved chunk or in the current one. */
  ghost predicate LinesCovered(st: Splitter, segs: seq<Segment>, fmt1: real -> string) {
    forall k :: 0 <= k < |segs| ==>
      Contains(st.current, SegmentLine(segs[k], fmt1))
      || exists c :: c in st.chunks && Contains(c.text, SegmentLine(segs[k], fmt1))
  }

  /** Saved chunks are not empty; the current chunk is empty only before the first
      segment, and then nothing is saved; the first chunk starts at the first segment. */
  ghost predicate SplitShape(st: Splitter, segs: seq<Segment>) {
    && (forall c :: c in st.chunks ==> c.text != "")
    && (segs == [] <==> st.current == "")
    && (segs == [] ==> st.chunks == [])
    && (segs != [] ==> if st.chunks == [] then st.startTime == segs[0].start else st.chunks[0].startTime == segs[0].start)
  }

  ghost predicate SplitInvariant(st: Splitter, segs: seq<Segment>, fmt1: real -> string) {
    LinesCovered(st, segs, fmt1) && SplitShape(st, segs)
  }

  lemma SplitStepShape(st: Splitter, all: seq<Segment>, segs: seq<Segment>, seg: Segment, chunkSize: int, fmt1: real -> string)
    requires SplitShape(st, segs)
    ensures SplitShape(SplitStep(st, all, seg, chunkSize, fmt1), segs + [seg])
  {
    assert (segs + [seg])[0] == (if segs == [] then seg else segs[0]);
  }

  /** The new line lands in the current chunk. */
  lemma SplitStepNewLine(st: Splitter, all: seq<Segment>, seg: Segment, chunkSize: int, fmt1: real -> string)
    ensures Contains(SplitStep(st, all, seg, chunkSize, fmt1).current, SegmentLine(seg, fmt1))
  {
    var line := SegmentLine(seg, fmt1);
    var st' := SplitStep(st, all, seg, chunkSize, fmt1);
    if |st.current| + |line| > chunkSize {
      assert st'.current == OverlapText(all, seg.start - 30.0, fmt1) + line;
      ContainsSuffix(OverlapText(all, seg.start - 30.0, fmt1), line);
    } else {
      assert st'.current == st.current + line;
      ContainsSuffix(st.current, line);
    }
  }

  /** An earlier line stays covered: a flushed chunk keeps it, an extended one too. */
  lemma SplitStepOldLine(st: Splitter, all: seq<Segment>, seg: Segment, chunkSize: int, fmt1: real -> string, l: string)
    requires l != []
    requires Contains(st.current, l) || exists c :: c in st.chunks && Contains(c.text, l)
    ensures var st' := SplitStep(st, all, seg, chunkSize, fmt1);
      Contains(st'.current, l) || exists c :: c in st'.chunks && Contains(c.text, l)
  {
    var line := SegmentLine(seg, fmt1);
    var st' := SplitStep(st, all, seg, chunkSize, fmt1);
    if Contains(st.current, l) {
      if |st.current| + |line| > chunkSize {
        ContainsLength(st.current, l);
        assert TextChunk(st.current, st.startTime) in st'.chunks;
      } else {
        ContainsExtend(st.current, line, l);
      }
    } else {
      var c :| c in st.chunks && Contains(c.text, l);
      assert c in st'.chunks;
    }
  }

  lemma SplitStepKeeps(st: Splitter, all: seq<Segment>, segs: seq<Segment>, seg: Segment, segs': seq<Segment>, chunkSize: int, fmt1: real -> string)
    requires SplitInvariant(st, segs, fmt1) && segs' == segs + [seg]
    ensures SplitInvariant(SplitStep(st, all, seg, chunkSize, fmt1), segs', fmt1)
  {
    SplitStepShape(st, all, segs, seg, chunkSize, fmt1);
    forall k | 0 <= k < |segs'|
      ensures var st' := SplitStep(st, all, seg, chunkSize, fmt1);
        Contains(st'.current, SegmentLine(segs'[k], fmt1))
        || exists c :: c in st'.chunks && Contains(c.text, SegmentLine(segs'[k], fmt1))
    {
      if k == |segs| {
        SplitStepNewLine(st, all, seg, chunkSize, fmt1);
      } else {
        SplitStepOldLine(st, all, seg, chunkSize, fmt1, SegmentLine(segs[k], fmt1));
      }
    }
  }

  lemma {:induction false} RunSplitterInvariant(all: seq<Segment>, n: nat, chunkSize: int, fmt1: real -> string)
    requires n <= |all|
    ensures SplitInvariant(RunSplitter(all, n, chunkSize, fmt1), all[..n], fmt1)
  {
    if n > 0 {
      var prev := RunSplitter(all, n - 1, chunkSize, fmt1);
      RunSplitterInvariant(all, n - 1, chunkSize, fmt1);
      assert all[..n - 1] + [all[n - 1]] == all[..n];
      SplitStepKeeps(prev, all, all[..n - 1], all[n - 1], all[..n], chunkSize, fmt1);
    }
  }

  /** No segments give no chunks; otherwise every segment's line lies in some chunk,
      no chunk is empty and the first chunk starts at the first segment. */
  lemma SplitChunksSpec(all: seq<Segment>, chunkSize: int, fmt1: real -> string)
    ensures var chunks := SplitChunks(all, chunkSize, fmt1);
      && (all == [] <==> chunks == [])
      && (forall c :: c in chunks ==> c.text != "")
      && (forall k :: 0 <= k < |all| ==> exists c :: c in chunks && Contains(c.text, SegmentLine(all[k], fmt1)))
      && (chunks != [] ==> chunks[0].startTime == all[0].start)
  {
    var st := RunSplitter(all, |all|, chunkSize, fmt1);
    RunSplitterInvariant(all, |all|, chunkSize, fmt1);
    assert all[..|all|] == all;
    var chunks := SplitChunks(all, chunkSize, fmt1);
    forall k | 0 <= k < |all| ensures exists c :: c in chunks && Contains(c.text, SegmentLine(all[k], fmt1)) {
      if Contains(st.current, SegmentLine(all[k], fmt1)) {
        assert TextChunk(st.current, st.startTime) in chunks;
      } else {
        var c :| c in st.chunks && Contains(c.text, SegmentLine(all[k], fmt1));
        assert c in chunks;
      }
    }
  }

  /** The inner loop of `_split_transcript_into_chunks`: the line of the last segment
      before the first one starting at `t` or later. */
  method OverlapScan(segs: seq<Segment>, t: real, fmt1: real -> string) returns (overlapText: string)
    ensures overlapText == OverlapText(segs, t, fmt1)
  {
    overlapText := "";
    var j := 0;
    while j < |segs|
      invariant 0 <= j <= |segs|
      invariant forall k :: 0 <= k < j ==> segs[k].start < t
      invariant overlapText == if j == 0 then "" else SegmentLine(segs[j - 1], fmt1)
    {
      if segs[j].start >= t {
        break;
      }
      overlapText := SegmentLine(segs[j], fmt1);
      j := j + 1;
    }
    OverlapTextAt(segs, t, fmt1, j);
  }

  /** The body of the segment loop of `_split_transcript_into_chunks`. */
  method SplitSegment(chunks0: seq<TextChunk>, currentChunk0: string, chunkStartTime0: real, segs: seq<Segment>,
                      segment: Segment, chunkSize: int, fmt1: real -> string)
    returns (chunks: seq<TextChunk>, currentChunk: string, chunkStartTime: real)
    ensures Splitter(chunks, currentChunk, chunkStartTime)
      == SplitStep(Splitter(chunks0, currentChunk0, chunkStartTime0), segs, segment, chunkSize, fmt1)
  {
    chunks, currentChunk, chunkStartTime := chunks0, currentChunk0, chunkStartTime0;
    var segmentText := SegmentLine(segment, fmt1);
    if |currentChunk| + |segmentText| > chunkSize {
      if currentChunk != "" {
        chunks := chunks + [TextChunk(currentChunk, chunkStartTime)];
      }
      var overlapText := OverlapScan(segs, segment.start - 30.0, fmt1);
      currentChunk := overlapText + segmentText;
      chunkStartTime := segment.start;
    } else {
      if currentChunk == "" {
        chunkStartTime := segment.start;
      }
      currentChunk := currentChunk + segmentText;
    }
  }

  /** `_split_transcript_into_chunks` (`overlap` is unused by the source). */
  method SplitTranscriptIntoChunks(transcript: Transcript, chunkSize: int, overlap: int, fmt1: real -> string)
    returns (chunks: seq<TextChunk>)
    ensures chunks == SplitChunks(transcript.segments, chunkSize, fmt1)
  {
    var segs := transcript.segments;
    chunks := [];
    var currentChunk := "";
    var chunkStartTime := 0.0;
    var i := 0;
    while i < |segs|
      invariant 0 <= i <= |segs|
      invariant Splitter(chunks, currentChunk, chunkStartTime) == RunSplitter(segs, i, chunkSize, fmt1)
    {
      chunks, currentChunk, chunkStartTime := SplitSegment(chunks, currentChunk, chunkStartTime, segs, segs[i], chunkSize, fmt1);
      i := i + 1;
    }
    if currentChunk != "" {
      chunks := chunks + [TextChunk(currentChunk, chunkStartTime)];
    }
  }

  // ---------------------------------------------------------------------------
  // Clips of one chunk (`_process_chunk`)

  /** The identity of the video the chunks come from. */
  datatype Source = Source(videoId: string, channelName: string, channelXHandle: Option<string>, videoTitle: string)

  function Duration(c: IdentifiedClip): real { c.endTime - c.startTime }

  /** One element of "clips": Crash where the source raises (a missing key, times that
      are not numbers), Skip when it lasts longer than `maxDuration`. The score is kept
      only as a number: a non-numeric score, which the source stores unconverted, is
      treated as raising here (see the README). */
  function ClipFrom(d: map<string, Json>, src: Source, maxDuration: real): (o: Outcome<IdentifiedClip>)
    ensures o.Keep? ==> Duration(o.value) <= maxDuration && o.value.videoId == src.videoId
  {
    if "start_time" !in d || "end_time" !in d then Crash
    else match (AsNumber(d["start_time"]), AsNumber(d["end_time"]))
      case (Some(start), Some(end)) =>
        if end - start > maxDuration then Skip
        else if "transcript_text" !in d || "clip_type" !in d || "value_reason" !in d || "score" !in d then Crash
        else
          (match AsNumber(d["score"])
           case None => Crash
           case Some(score) =>
             Keep(IdentifiedClip(start, end, TextOr(d["transcript_text"], ""), OptText(Get(d, "speaker_name", JNull)),
                                 TextOr(d["clip_type"], ""), TextOr(d["value_reason"], ""), score,
                                 src.videoId, src.channelName, src.channelXHandle, src.videoTitle, None, None)))
      case _ => Crash
  }

  /** The clips of a list of elements, or None when one of them raises. */
  function ClipsFrom(items: seq<map<string, Json>>, src: Source, maxDuration: real): Option<seq<IdentifiedClip>>
    decreases |items|
  {
    if items == [] then Some([])
    else match ClipsFrom(items[..|items| - 1], src, maxDuration)
      case None => None
      case Some(acc) =>
        match ClipFrom(items[|items| - 1], src, maxDuration)
        case Crash => None
        case Skip => Some(acc)
        case Keep(c) => Some(acc + [c])
  }

  /** Every clip kept lasts at most `maxDuration` and belongs to the source video. */
  lemma {:induction false} ClipsFromSound(items: seq<map<string, Json>>, src: Source, maxDuration: real)
    ensures var r := ClipsFrom(items, src, maxDuration);
      r.Some? ==> forall c :: c in r.value ==> Duration(c) <= maxDuration && c.videoId == src.videoId
    decreases |items|
  {
    if items != [] {
      ClipsFromSound(items[..|items| - 1], src, maxDuration);
    }
  }

  lemma {:induction false} ClipsCrashPersists(items: seq<map<string, Json>>, src: Source, maxDuration: real, n: nat)
    requires n <= |items| && ClipsFrom(items[..n], src, maxDuration).None?
    ensures ClipsFrom(items, src, maxDuration).None?
    decreases |items| - n
  {
    if n < |items| {
      assert items[..n + 1][..n] == items[..n];
      ClipsCrashPersists(items, src, maxDuration, n + 1);
    } else {
      assert items[..n] == items;
    }
  }

  /** `_process_chunk`: any exception gives no clips for the chunk. */
  function ChunkClips(reply: Option<string>, loads: string -> Option<Json>, src: Source, maxDuration: real): (r: seq<IdentifiedClip>)
    ensures forall c :: c in r ==> Duration(c) <= maxDuration && c.videoId == src.videoId
  {
    if reply.None? then []
    else match loads(reply.value)
      case None => []
      case Some(result) =>
        match ListField(result, "clips")
        case None => []
        case Some(items) =>
          ClipsFromSound(items, src, maxDuration);
          ClipsFrom(items, src, maxDuration).GetOr([])
  }

  /** The loop of `_process_chunk` over the parsed clips: None once an element raises. */
  method CollectChunkClips(data: seq<map<string, Json>>, src: Source, maxDuration: real)
    returns (clips: Option<seq<IdentifiedClip>>)
    ensures clips == ClipsFrom(data, src, maxDuration)
  {
    var kept: seq<IdentifiedClip> := [];
    var i := 0;
    while i < |data|
      invariant 0 <= i <= |data|
      invariant ClipsFrom(data[..i], src, maxDuration) == Some(kept)
    {
      var o := ClipFrom(data[i], src, maxDuration);
      assert ClipsFrom(data[..i + 1], src, maxDuration)
        == (match o case Crash => None case Skip => Some(kept) case Keep(x) => Some(kept + [x])) by {
        assert data[..i + 1][..i] == data[..i];
      }
      match o {
        case Crash =>
          ClipsCrashPersists(data, src, maxDuration, i + 1);
          return None;
        case Skip =>
        case Keep(x) =>
          kept := kept + [x];
      }
      i := i + 1;
    }
    assert data[..i] == data;
    clips := Some(kept);
  }

  /** `_process_chunk`: the reply parsed, its "clips" list read, and any exception
      turned into no clips. */
  method ProcessChunk(reply: Option<string>, loads: string -> Option<Json>, src: Source, maxDuration: real)
    returns (clips: seq<IdentifiedClip>)
    ensures clips == ChunkClips(reply, loads, src, maxDuration)
  {
    if reply.None? {
      return [];
    }
    var result := loads(reply.value);
    if result.None? {
      return [];
    }
    var items := ListField(result.value, "clips");
    if items.None? {
      return [];
    }
    var collected := CollectChunkClips(items.value, src, maxDuration);
    clips := collected.GetOr([]);
  }

  // ---------------------------------------------------------------------------
  // Deduplication (`_deduplicate_clips`)

  /** Higher score first. */
  predicate HigherScore(a: IdentifiedClip, b: IdentifiedClip) { a.score > b.score }

  lemma HigherScoreStrict()
    ensures StrictOrder(HigherScore)
  {
  }

  /** `clip` is a duplicate of the kept `unique`: same video, and the two windows
      overlap for more than half of `clip`'s own duration. */
  predicate Duplicates(clip: IdentifiedClip, unique: IdentifiedClip) {
    var overlapStart := if clip.startTime >= unique.startTime then clip.startTime else unique.startTime;
    var overlapEnd := if clip.endTime <= unique.endTime then clip.endTime else unique.endTime;
    && clip.videoId == unique.videoId
    && overlapEnd > overlapStart
    && (overlapEnd - overlapStart) / Duration(clip) > 0.5
  }

  /** A clip that does not last a positive time is never a duplicate (so the division
      never sees a zero duration). */
  lemma EmptyNeverDuplicate(clip: IdentifiedClip, unique: IdentifiedClip)
    requires Duration(clip) <= 0.0
    ensures !Duplicates(clip, unique)
  {
  }

  predicate DuplicateOfAny(clip: IdentifiedClip, kept: seq<IdentifiedClip>) {
    exists k :: 0 <= k < |kept| && Duplicates(clip, kept[k])
  }

  /** The reference: walk the list and keep a clip unless it duplicates a kept one. */
  function KeepUnique(s: seq<IdentifiedClip>): seq<IdentifiedClip>
    decreases |s|
  {
    if s == [] then []
    else
      var kept := KeepUnique(s[..|s| - 1]);
      if DuplicateOfAny(s[|s| - 1], kept) then kept else kept + [s[|s| - 1]]
  }

  /** `_deduplicate_clips`: over the clips sorted by score, highest first. */
  function Deduplicated(clips: seq<IdentifiedClip>): seq<IdentifiedClip> {
    KeepUnique(SortBy(clips, HigherScore))
  }

  /** The kept clips are a subsequence of the input, no kept clip duplicates an earlier
      kept one, and every clip is kept or duplicates a kept clip of its own video. */
  lemma {:induction false} KeepUniqueSpec(s: seq<IdentifiedClip>)
    ensures var r := KeepUnique(s);
      && IsSubsequence(r, s)
      && (forall i, j :: 0 <= i < j < |r| ==> !Duplicates(r[j], r[i]))
      && (forall c :: c in s ==> c in r || exists u :: u in r && u.videoId == c.videoId && Duplicates(c, u))
    decreases |s|
  {
    if s != [] {
      var init := s[..|s| - 1];
      var x := s[|s| - 1];
      KeepUniqueSpec(init);
      var kept := KeepUnique(init);
      assert s == init + [x];
      if DuplicateOfAny(x, kept) {
        SubsequenceExtend(kept, init, x);
        var k :| 0 <= k < |kept| && Duplicates(x, kept[k]);
        assert kept[k] in kept;
      } else {
        SubsequenceAppend(kept, init, x);
      }
    }
  }

  /** The deduplicated clips are sorted by score, highest first, so the final sort of
      `identify_clips` leaves them as they are. */
  lemma DeduplicatedSorted(clips: seq<IdentifiedClip>)
    ensures Ordered(Deduplicated(clips), HigherScore)
    ensures SortBy(Deduplicated(clips), HigherScore) == Deduplicated(clips)
  {
    var sorted := SortBy(clips, HigherScore);
    HigherScoreStrict();
    SortByOrdered(clips, HigherScore);
    KeepUniqueSpec(sorted);
    SubsequenceOrdered(KeepUnique(sorted), sorted, HigherScore);
    SortByOfOrdered(Deduplicated(clips), HigherScore);
  }

  /** The inner loop of `_deduplicate_clips`: whether `clip` overlaps a kept clip of
      the same video by more than half of its own duration. */
  method HasDuplicate(clip: IdentifiedClip, uniqueClips: seq<IdentifiedClip>) returns (isDuplicate: bool)
    ensures isDuplicate == DuplicateOfAny(clip, uniqueClips)
  {
    isDuplicate := false;
    var j := 0;
    while j < |uniqueClips|
      invariant 0 <= j <= |uniqueClips|
      invariant isDuplicate ==> DuplicateOfAny(clip, uniqueClips)
      invariant !isDuplicate ==> forall k :: 0 <= k < j ==> !Duplicates(clip, uniqueClips[k])
    {
      var unique := uniqueClips[j];
      if clip.videoId == unique.videoId {
        var overlapStart := if clip.startTime >= unique.startTime then clip.startTime else unique.startTime;
        var overlapEnd := if clip.endTime <= unique.endTime then clip.endTime else unique.endTime;
        if overlapEnd > overlapStart {
          var overlapDuration := overlapEnd - overlapStart;
          var clipDuration := clip.endTime - clip.startTime;
          if overlapDuration / clipDuration > 0.5 {
            isDuplicate := true;
            break;
          }
        }
      }
      j := j + 1;
    }
  }

  /** A clip is dropped exactly when it duplicates a clip kept before it, stated on
      the prefixes the loop of `_deduplicate_clips` walks. */
  lemma KeepUniqueAt(s: seq<IdentifiedClip>, i: nat)
    requires i < |s|
    ensures KeepUnique(s[..i + 1])
      == if DuplicateOfAny(s[i], KeepUnique(s[..i])) then KeepUnique(s[..i]) else KeepUnique(s[..i]) + [s[i]]
  {
    assert s[..i + 1][..i] == s[..i];
  }

  /** The nested loop of `_deduplicate_clips`, over the clips already sorted. */
  method KeepUniqueClips(sortedClips: seq<IdentifiedClip>) returns (uniqueClips: seq<IdentifiedClip>)
    ensures uniqueClips == KeepUnique(sortedClips)
  {
    uniqueClips := [];
    var i := 0;
    while i < |sortedClips|
      invariant 0 <= i <= |sortedClips|
      invariant uniqueClips == KeepUnique(sortedClips[..i])
    {
      var clip := sortedClips[i];
      var isDuplicate := HasDuplicate(clip, uniqueClips);
      KeepUniqueAt(sortedClips, i);
      if !isDuplicate {
        uniqueClips := uniqueClips + [clip];
      }
      i := i + 1;
    }
    assert sortedClips[..i] == sortedClips;
  }

  /** `_deduplicate_clips`: sort by score, then keep the clips no earlier kept clip covers. */
  method DeduplicateClips(clips: seq<IdentifiedClip>) returns (uniqueClips: seq<IdentifiedClip>)
    ensures uniqueClips == Deduplicated(clips)
  {
    if clips == [] {
      return [];
    }
    var sortedClips := SortBy(clips, HigherScore);
    uniqueClips := KeepUniqueClips(sortedClips);
  }

  // ---------------------------------------------------------------------------
  // `identify_clips`

  /** The clips of every chunk, in chunk order. */
  function AllClips(chunks: seq<TextChunk>, chat: string -> Option<string>, prompt: string -> string,
                    loads: string -> Option<Json>, src: Source, maxDuration: real): seq<IdentifiedClip>
    decreases |chunks|
  {
    if chunks == [] then []
    else AllClips(chunks[..|chunks| - 1], chat, prompt, loads, src, maxDuration)
         + ChunkClips(chat(prompt(chunks[|chunks| - 1].text)), loads, src, maxDuration)
  }

  /** `identify_clips`: chunk, collect, deduplicate, sort by score. */
  method IdentifyClips(transcript: Transcript, videoTitle: string, channelName: string, channelXHandle: Option<string>,
                       chunkSize: int, chunkOverlap: int, chat: string -> Option<string>, prompt: string -> string,
                       loads: string -> Option<Json>, maxDuration: real, fmt1: real -> string)
    returns (allClips: seq<IdentifiedClip>)
    ensures var src := Source(transcript.videoId, channelName, channelXHandle, videoTitle);
      allClips == Deduplicated(AllClips(SplitChunks(transcript.segments, chunkSize, fmt1), chat, prompt, loads, src, maxDuration))
    ensures Ordered(allClips, HigherScore)
  {
    var src := Source(transcript.videoId, channelName, channelXHandle, videoTitle);
    var chunks := SplitTranscriptIntoChunks(transcript, chunkSize, chunkOverlap, fmt1);
    allClips := [];
    var i := 0;
    while i < |chunks|
      invariant 0 <= i <= |chunks|
      invariant allClips == AllClips(chunks[..i], chat, prompt, loads, src, maxDuration)
    {
      assert chunks[..i + 1][..i] == chunks[..i];
      var clips := ProcessChunk(chat(prompt(chunks[i].text)), loads, src, maxDuration);
      allClips := allClips + clips;
      i := i + 1;
    }
    assert chunks[..i] == chunks;
    ghost var collected := allClips;
    allClips := DeduplicateClips(allClips);
    DeduplicatedSorted(collected);
    allClips := SortBy(allClips, HigherScore);
  }

  /** Every identified clip lasts at most `maxDuration`, belongs to the transcript's
      video, and is one of the collected clips. */
  lemma IdentifiedClipsSpec(chunks: seq<TextChunk>, chat: string -> Option<string>, prompt: string -> string,
                            loads: string -> Option<Json>, src: Source, maxDuration: real)
    ensures var all := AllClips(chunks, chat, prompt, loads, src, maxDuration);
      forall c :: c in Deduplicated(all) ==> c in all && Duration(c) <= maxDuration && c.videoId == src.videoId
  {
    var all := AllClips(chunks, chat, prompt, loads, src, maxDuration);
    AllClipsBounded(chunks, chat, prompt, loads, src, maxDuration);
    KeepUniqueSpec(SortBy(all, HigherScore));
    SubsequenceMembers(Deduplicated(all), SortBy(all, HigherScore));
    forall c | c in Deduplicated(all) ensures c in all {
      assert c in multiset(SortBy(all, HigherScore));
    }
  }

  lemma {:induction false} AllClipsBounded(chunks: seq<TextChunk>, chat: string -> Option<string>, prompt: string -> string,
                                           loads: string -> Option<Json>, src: Source, maxDuration: real)
    ensures forall c :: c in AllClips(chunks, chat, prompt, loads, src, maxDuration) ==> Duration(c) <= maxDuration && c.videoId == src.videoId
    decreases |chunks|
  {
    if chunks != [] {
      AllClipsBounded(chunks[..|chunks| - 1], chat, prompt, loads, src, maxDuration);
    }
  }
}
