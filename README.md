# Podcast clipper: clip selection engine

A Dafny model of the clip selection engine of a podcast clipper. The engine takes a
timestamped podcast transcript and turns it into a short, ranked list of clips worth
posting. Its parts:

- **Clip finder v3.** A deterministic pipeline:
  - channel tiers and their settings;
  - time-windowed scan chunks with 30 s of overlap;
  - validation of the pattern matches the language model reports for each chunk;
  - hard rejection filters;
  - grouping of nearby matches into candidates, with multiplicative score bonuses;
  - the tier's score threshold and greedy selection with a five-minute gap.
- **Clip finder v4.** One model call. The reply is repaired in layers: direct parse,
  brace-balanced slice, comma and newline rewrite, then regex extraction. Each clip's
  text is *grounded*: it is replaced by the verbatim text of the transcript segments
  it overlaps. Clips must start after the intro and last between 25 s and 120 s.
  There are at most two attempts.
- **Clip finder v5.** Three passes:
  1. candidates, with their durations normalised;
  2. a score per candidate, 5.0 by default;
  3. a polished quotable line for each of the best five.
- **Shared pieces:**
  - the transcript value type with its caption and JSON conversions;
  - the older character-budget chunker and the >50 %-overlap deduplicator;
  - the YouTube duration parser and the two podcast filters;
  - the RSS feed reader;
  - the fetch script's merge, dedupe and retention of saved clips;
  - the offline trigger-phrase counter and yield estimate.

Each source file is one module:

| file | module |
|---|---|
| `transcriber.dfy` | `Transcriber` |
| `clip_patterns.dfy` | `ClipPatterns` (the pattern, opener and jargon tables) |
| `clip_finder_v3.dfy` | `ClipFinderV3` |
| `clip_finder_v4.dfy` | `ClipFinderV4` |
| `clip_finder_v5.dfy` | `ClipFinderV5` |
| `clip_identifier.dfy` | `ClipIdentifier` |
| `youtube_monitor.dfy` | `YouTubeMonitor` |
| `rss_monitor.dfy` | `RssMonitor` |
| `fetch_clips.dfy` | `FetchClips` |
| `tier_batch.dfy` | `TierBatch` |

Four helper modules hold what Python provides:

- `Wrappers`: `Option`, and the three-way `Outcome` of one loop element (raise, skip, keep).
- `Seqs`: comprehension filters, a stable sort, sums.
- `Text`: `lower`, `strip`, `in`, `join`, `split`, digit runs, string order.
- `Json`: the values `json.loads` returns.

Loops in the source are `while` loops in methods. Each method is proved equal to a
function that specifies it, and lemmas state what the source promises about that
function.

The two finders that keep the current transcript in a field (v4 and v5) are classes.
Their `find_clips` sets that field and then reads it through `_get_real_transcript`.

### Behaviour reproduced as written

- **Score bonuses.** In `_score_candidates` the ×1.2 branch for clips of at most 30 s
  sits behind the `≤ 45` test, so it never applies. `ClipFinderV3.BonusFactors`
  states the three factors that do apply.
- **Grouping.** A match joins the current group when it starts less than 30 s after
  the *last member's* end, not the group's latest end (`ClipFinderV3.Chained`).
- **Diversity.** The same-pattern branch of `_apply_diversity_constraints` cannot
  change the result. `ClipFinderV3.ApplyDiversityConstraints` models both branches
  and is proved equal to the gap-only `Greedy`.
- **v4 transcript formatting.** The `≥ 60 s` fallback of `_format_transcript` is dead:
  `ClipFinderV4.SixtySecondFallbackDead`.
- **Brace scan.** The brace count of the v4 and v5 parsers ignores string literals. A
  `{` inside a quoted string counts (`ClipFinderV4.Depth` counts characters).

## Model

| member | source | states |
|---|---|---|
| ClipFinderV3.DictSet | src/clip_finder_v3.py:296 | Assigning a key in the tier table keeps keys unique. Every other entry is unchanged, and the key maps to the new tier. |
| ClipFinderV3.BuildChannelTiers | src/clip_finder_v3.py:294-300 | The table built from the channel list (lower-cased names, and handles without `@`) has unique keys. |
| ClipFinderV3.GetChannelTier | src/clip_finder_v3.py:302-312 | An exact lower-cased key gives its tier. Otherwise the first key in table order that contains the name, or is contained in it, gives its tier. Otherwise the tier is "B". |
| ClipFinderV3.GetTierSettings | src/clip_finder_v3.py:314-322 | An unconfigured tier gets its defaults, and an unknown tier gets B's (2, 0, 1.0). A configured key overrides its default one key at a time. |
| ClipFinderV3.CreateScanChunks | src/clip_finder_v3.py:434-480 | The chunking loop computes exactly the chunk list of the specification `ScanChunks`. |
| ClipFinderV3.StepChunkerSpec | src/clip_finder_v3.py:449-466 | A chunk closes iff the segment starts more than `chunk_seconds` after the chunk start and the chunk is non-empty. The closed chunk holds the old segments. The next chunk is seeded with exactly the old segments starting at or after the boundary segment's start minus 30 s, in order. Its start is the first seeded segment's start, or the boundary segment's. |
| ClipFinderV3.RunChunkerKeeps | src/clip_finder_v3.py:449-466 | After any prefix of the segments, every closed chunk is a non-empty ordered subsequence ending at its last segment's end, and every segment seen is in some chunk or in the open one. |
| ClipFinderV3.ScanChunksSpec | src/clip_finder_v3.py:443-480 | There are no chunks iff there are no segments. Each chunk is non-empty, is a subsequence of the segments and ends at its last segment's end. Every segment is in at least one chunk. |
| ClipFinderV3.ScanChunksLast | src/clip_finder_v3.py:469-478 | The open chunk is always non-empty at the end and is emitted last. |
| ClipFinderV3.ScanChunksValid | src/clip_finder_v3.py:452-460 | Every chunk, the last one included, is a non-empty subsequence ending at its last segment's end. |
| ClipFinderV3.ScanChunksCovered | src/clip_finder_v3.py:449-478 | Every segment appears in some chunk. |
| ClipFinderV3.PatternIndex | src/clip_finder_v3.py:581-591 | The pattern found, if any, is an index into the table. |
| ClipFinderV3.PatternIndexSpec | src/clip_finder_v3.py:581-591 | The first pattern whose id or lower-cased name occurs in the name wins. Failing that, the first pattern with an id word that occurs in the name wins. None iff no pattern hits either way. |
| ClipFinderV3.PatternIndexWord | src/clip_finder_v3.py:588-590 | With no direct hit, the first pattern with a word hit is chosen. |
| ClipFinderV3.GetPatternId | src/clip_finder_v3.py:553-555 | No id iff no pattern matches the name. A returned id is the id of a table pattern. |
| ClipFinderV3.ValidateMatch | src/clip_finder_v3.py:551-573 | A non-string pattern, or a known pattern with a non-numeric time, raises. An unknown pattern is skipped. A known pattern is kept iff 15 ≤ end − start ≤ 90, bounds included. A kept match has that pattern's id, name and weight as score, and the given times. |
| ClipFinderV3.ValidateAll | src/clip_finder_v3.py:551-575 | Every match of a list that does not raise is valid. |
| ClipFinderV3.ChunkMatches | src/clip_finder_v3.py:540-579 | Every match returned for a chunk is valid: a known pattern with its name, its weight as score and a duration within 15-90 s. |
| ClipFinderV3.ScanChunkMatches | src/clip_finder_v3.py:548-579 | The match loop computes exactly `ChunkMatches`. |
| ClipFinderV3.CrashPersists | src/clip_finder_v3.py:577-579 | Once a prefix of the elements raises, the whole chunk raises. |
| ClipFinderV3.ScanForPatterns | src/clip_finder_v3.py:410-432 | Every match collected from any chunk is valid. |
| ClipFinderV3.CheckHardFilters | src/clip_finder_v3.py:598-622 | The rejection tests decide exactly `PassesHardFilters`. A match fails on a bad opener of its lower-cased stripped text, three or more jargon terms in its first 50 words, a stripped text ending in "...", or a quotable line shorter than 20. |
| ClipFinderV3.HardFilteredIsFilter | src/clip_finder_v3.py:593-626 | The filtering recursion is the comprehension filter with the `Passes` predicate. |
| ClipFinderV3.ApplyHardFilters | src/clip_finder_v3.py:593-626 | The loop keeps exactly the matches that pass, in order. |
| ClipFinderV3.HardFiltersSpec | src/clip_finder_v3.py:593-626 | A match is kept iff it is in the input and passes. The result is a subsequence of the input. Filtering twice equals filtering once. |
| ClipFinderV3.BestIndex | src/clip_finder_v3.py:657 | The best match has the maximum score, and no earlier match has that score (`max` keeps the first). |
| ClipFinderV3.MinStart | src/clip_finder_v3.py:663 | The least start time of the group, attained by a member. |
| ClipFinderV3.MaxEnd | src/clip_finder_v3.py:664 | The greatest end time of the group, attained by a member. |
| ClipFinderV3.GroupToCandidateSpec | src/clip_finder_v3.py:654-673 | The candidate spans from the least member start to the greatest member end. Its score is the sum of member scores. Pattern, quotable line, text, speaker and reason come from the first top-scoring member. |
| ClipFinderV3.ExtendGroup | src/clip_finder_v3.py:641-642 | A match starting less than 30 s after the last member's end joins the current group. |
| ClipFinderV3.StartGroup | src/clip_finder_v3.py:643-646 | A match 30 s or more after the last member's end closes the group and starts a new one. |
| ClipFinderV3.CloseGroup | src/clip_finder_v3.py:649-650 | Closing the last group makes the candidates cut the whole sorted list. |
| ClipFinderV3.CutGroups | src/clip_finder_v3.py:636-652 | The grouping loop cuts the sorted matches into consecutive chained groups whose concatenation is the sorted list. Consecutive groups are 30 s or more apart, measured from a group's last member. |
| ClipFinderV3.CreateCandidates | src/clip_finder_v3.py:628-652 | No matches give no candidates. Otherwise the candidates cut the matches after a stable sort by start time. |
| ClipFinderV3.BonusFactors | src/clip_finder_v3.py:679-691 | Only the score changes. It is multiplied by 1.2 iff there is more than one member match, by 1.1 iff the duration is ≤ 45 (never by the ≤ 30 factor), and by 1.05 iff the text has a digit. |
| ClipFinderV3.ScoresHigherStrict | src/clip_finder_v3.py:694 | The descending score comparison is a strict weak order, so the stable sort is well defined. |
| ClipFinderV3.ScoreCandidates | src/clip_finder_v3.py:675-695 | The result is the bonused candidates, sorted by score with the highest first. It is ordered and a permutation of them. |
| ClipFinderV3.ThresholdSpec | src/clip_finder_v3.py:398-400 | A non-positive threshold keeps everything. Otherwise exactly the candidates scoring at least the threshold are kept, in order. |
| ClipFinderV3.GreedySpec | src/clip_finder_v3.py:697-731 | The selection has at most `max_clips` elements (none when it is negative), starts pairwise at least `min_gap` apart, and is a subsequence of the input. |
| ClipFinderV3.GreedySize | src/clip_finder_v3.py:710-711 | At most `max_clips` are selected. |
| ClipFinderV3.GreedyApart | src/clip_finder_v3.py:714-726 | Any two selected candidates start at least `min_gap` apart. |
| ClipFinderV3.GreedySubsequence | src/clip_finder_v3.py:709-726 | The selection keeps input order. |
| ClipFinderV3.GreedySaturated | src/clip_finder_v3.py:710-711 | Once `max_clips` are selected, the rest of the input changes nothing (the `break`). |
| ClipFinderV3.ApplyDiversityConstraints | src/clip_finder_v3.py:697-731 | The loop, with both `if` and `elif` branches, selects exactly `Greedy`: the same-pattern test has no effect. |
| ClipFinderV3.ReviewTextLines | src/clip_finder_v3.py:733-752 | When no field holds a newline, the review message splits back into exactly its lines: eight, or nine when more than one pattern matched. They are the score, the pattern, the window, a blank line, the "Quotable:" header, the quoted quotable line, a blank line, the reason, and then the member pattern names joined by ", ". |
| ClipFinderV3.NewFinder | src/clip_finder_v3.py:282-300 | The finder's channel table has unique keys. |
| ClipFinderV3.ScanAllChunks | src/clip_finder_v3.py:419-432 | The chunk loop collects exactly `ScanForPatterns`. |
| ClipFinderV3.GroupMembers | src/clip_finder_v3.py:636-650 | Every candidate member is one of the sorted matches. |
| ClipFinderV3.WellGroupedNonEmpty | src/clip_finder_v3.py:637-650 | Every candidate has at least one member. |
| ClipFinderV3.CandidatesFromMatches | src/clip_finder_v3.py:384-391 | Every candidate is built from filtered raw matches. |
| ClipFinderV3.ScoredFromMatches | src/clip_finder_v3.py:395 | Scoring keeps that provenance. |
| ClipFinderV3.SubsequenceFromMatches | src/clip_finder_v3.py:398-405 | Threshold and selection keep that provenance. |
| ClipFinderV3.FindClips | src/clip_finder_v3.py:352-408 | No raw matches give []. The result has at most the tier's `max_clips`, and with a positive threshold every clip scores at least it. Clips start pairwise ≥ 300 s apart, are ordered by descending score, and are built from matches that pass the filters. |
| ClipFinderV4.CloseFrom | src/clip_finder_v4.py:212-219 | A closing index found lies after the start, on a `}`. |
| ClipFinderV4.CloseFromFirstZero | src/clip_finder_v4.py:212-219 | The scan stops at the first index where the depth returns to 0, or finds none. |
| ClipFinderV4.BraceScanSpec | src/clip_finder_v4.py:210-219 | From the first `{`, the end index is the first where the count of `{` minus `}` (string literals not excepted) returns to 0. None iff it never does. |
| ClipFinderV4.BraceScan | src/clip_finder_v4.py:210-219 | The counting loop returns exactly `CloseFrom`. |
| ClipFinderV4.BraceSliceSpec | src/clip_finder_v4.py:221-225 | The slice starts with `{`. When the depth returns to 0, it is balanced and ends with `}`. Otherwise it is the suffix from the first `{` plus "}]}". |
| ClipFinderV4.SkipSpaces | src/clip_finder_v4.py:236 | `\s*`: skips exactly the whitespace run. |
| ClipFinderV4.RemoveTrailingCommas | src/clip_finder_v4.py:236 | The rewrite never lengthens the text. |
| ClipFinderV4.RemoveTrailingCommasRule | src/clip_finder_v4.py:236 | A comma followed only by whitespace and then `}` or `]` is removed along with the whitespace. |
| ClipFinderV4.RemoveTrailingCommasNoComma | src/clip_finder_v4.py:236 | Text without commas is unchanged. |
| ClipFinderV4.RemoveTrailingCommasKeeps | src/clip_finder_v4.py:236 | Every character other than comma and whitespace keeps its count, braces included. |
| ClipFinderV4.ReplaceNewlines | src/clip_finder_v4.py:238 | The newline rewrite keeps the length. |
| ClipFinderV4.ReplaceNewlinesSpec | src/clip_finder_v4.py:238 | A remaining newline is preceded by a backslash, and every other character is unchanged. |
| ClipFinderV4.RepairKeepsDepth | src/clip_finder_v4.py:234-238 | The textual repair keeps the brace depth. |
| ClipFinderV4.NumberAt | src/clip_finder_v4.py:248 | `\d+(?:\.\d+)?` consumes at least one character when it matches. |
| ClipFinderV4.LiteralAt | src/clip_finder_v4.py:248 | A literal part of the pattern matches exactly that text. |
| ClipFinderV4.QuotedAt | src/clip_finder_v4.py:248 | `"([^"]*)"` captures the text up to the next quote, possibly empty. |
| ClipFinderV4.ClipAt | src/clip_finder_v4.py:248 | One clip object of the pattern consumes the text it matches. |
| ClipFinderV4.ExtractedClipFields | src/clip_finder_v4.py:253-261 | The extracted clip has its two numbers and its text, pattern "EXTRACTED", the fixed reason, speaker null and the first 100 characters as quotable line. |
| ClipFinderV4.RegexFallback | src/clip_finder_v4.py:246-268 | The fallback fails iff the regex finds no clip. |
| ClipFinderV4.RegexFallbackClips | src/clip_finder_v4.py:249-264 | The fallback object is `{"clips": [...]}` with one extracted clip per match, fields as above. |
| ClipFinderV4.ParseResponse | src/clip_finder_v4.py:194-207 | A stripped reply that parses is returned as parsed. A reply that does not parse and has no `{` gives None. |
| ClipFinderV4.ParseJsonResponse | src/clip_finder_v4.py:194-268 | The layered repair (parse, slice, rewrite, regex over the slice) computes exactly `ParseResponse`. |
| ClipFinderV4.RealTranscriptChoice | src/clip_finder_v4.py:270-288 | The texts of the segments that strictly overlap the window, in transcript order, joined and stripped. With no overlap, those of the segments inside the window widened by 5 s. |
| ClipFinderV4.RealTranscriptSound | src/clip_finder_v4.py:270-288 | Non-empty grounded text needs a stored transcript and a segment that overlaps or lies near the window. |
| ClipFinderV4.CollectTexts | src/clip_finder_v4.py:277-286 | The appending loop collects the texts of exactly the kept segments, in order. |
| ClipFinderV4.FormatTranscript | src/clip_finder_v4.py:290-328 | The result is at most `max_chars` plus the truncation marker long. |
| ClipFinderV4.SixtySecondFallbackDead | src/clip_finder_v4.py:295-297 | If no segment starts at 30 s or later, none starts at 60 s or later: the fallback is dead. |
| ClipFinderV4.FormatUsesLateSegments | src/clip_finder_v4.py:293-297 | The text depends only on the segments starting at 30 s or later. |
| ClipFinderV4.FormatShortIsFull | src/clip_finder_v4.py:303-305 | A full text within `max_chars` is returned unchanged. |
| ClipFinderV4.ValidateClip | src/clip_finder_v4.py:120-153 | A kept clip starts at 30 s or later, lasts 25-120 s and carries the non-empty grounded text of its window. |
| ClipFinderV4.ValidateClips | src/clip_finder_v4.py:118-153 | Every clip of a list that does not raise is good. |
| ClipFinderV4.ClipCrashPersists | src/clip_finder_v4.py:120-172 | An element that raises aborts the whole attempt. |
| ClipFinderV4.ValidateClipsStep | src/clip_finder_v4.py:120-153 | One more element extends the clips by what that element gives. |
| ClipFinderV4.Attempt | src/clip_finder_v4.py:111-199 | An attempt that finds clips finds a non-empty list of good clips. A reply that does not parse, or parses to JSON `null`, goes on to the next attempt, as the raised `JSONDecodeError` does. |
| ClipFinderV4.SearchResultSpec | src/clip_finder_v4.py:110-175 | At most `max_clips`, all good. A first attempt that breaks out gives []. A first reply that does not parse, or parses to `null`, gives exactly what the simple-prompt reply yields. |
| ClipFinderV4.FirstNGood | src/clip_finder_v4.py:157 | `clips[:max_clips]` keeps at most `max_clips` good clips. |
| ClipFinderV4.ClipFinderV4.constructor | src/clip_finder_v4.py:39-40 | Three clips at most, no transcript stored. |
| ClipFinderV4.ClipFinderV4.GetRealTranscript | src/clip_finder_v4.py:270-288 | Reads the stored transcript and returns exactly `RealTranscript`. |
| ClipFinderV4.ClipFinderV4.CheckClip | src/clip_finder_v4.py:122-153 | The loop body computes exactly `ValidateClip`. |
| ClipFinderV4.ClipFinderV4.CollectClips | src/clip_finder_v4.py:118-153 | The element loop computes exactly `ValidateClips`, returning None at the first raising element. |
| ClipFinderV4.ClipFinderV4.RunAttempt | src/clip_finder_v4.py:111-172 | One attempt is exactly `Attempt`: a failed call breaks, no JSON or a `null` reply retries, a raising element breaks, no clip retries, otherwise the clips. |
| ClipFinderV4.ClipFinderV4.FindClips | src/clip_finder_v4.py:42-175 | Stores the transcript and returns the result of at most two attempts on the 15000-character text, the second with the simple prompt. |
| ClipFinderV5.RealTranscriptSound | src/clip_finder_v5.py:292-301 | Non-empty grounded text needs a stored transcript and a strictly overlapping segment: there is no buffer fallback. |
| ClipFinderV5.FormatTranscript | src/clip_finder_v5.py:279-290 | The result is never longer than `max_chars`. |
| ClipFinderV5.FormatTranscriptSpec | src/clip_finder_v5.py:281-290 | The text depends only on the segments starting at 30 s or later, and a full text within `max_chars` is returned whole. |
| ClipFinderV5.ParseJson | src/clip_finder_v5.py:303-314 | A stripped reply that parses is returned. A reply that does not parse and has no `{` gives `{}`. |
| ClipFinderV5.SliceParse | src/clip_finder_v5.py:312-333 | Text without `{` gives `{}`. |
| ClipFinderV5.ParseJsonSpec | src/clip_finder_v5.py:303-333 | The parser never fails. The result is the direct parse, `{}`, or the parse of the balanced slice from the first `{`. |
| ClipFinderV5.ParseJsonReply | src/clip_finder_v5.py:303-333 | The method computes exactly `ParseJson`. |
| ClipFinderV5.SliceParseReply | src/clip_finder_v5.py:312-333 | The brace-scan part computes exactly `SliceParse`. |
| ClipFinderV5.StartValue | src/clip_finder_v5.py:137 | A falsy start reads as 0, and a number as itself. |
| ClipFinderV5.EndValue | src/clip_finder_v5.py:138-144 | A missing, null or zero end becomes start + 45, and a non-zero number is kept. |
| ClipFinderV5.NormalisedEnd | src/clip_finder_v5.py:150-154 | The window always lasts 25-120 s. An in-range end is kept, a short one becomes 45 s and a long one 60 s. |
| ClipFinderV5.CandidateFrom | src/clip_finder_v5.py:136-168 | A kept candidate starts at 30 s or later, lasts 25-120 s and has the non-empty grounded text of its window. Its score is not yet set. |
| ClipFinderV5.CandidatesFrom | src/clip_finder_v5.py:136-168 | Every candidate of a list that does not raise is good. |
| ClipFinderV5.CandidateCrashPersists | src/clip_finder_v5.py:172-174 | An element that raises empties pass 1. |
| ClipFinderV5.Candidates | src/clip_finder_v5.py:131-174 | Pass 1 yields good candidates only, and none when the call fails. |
| ClipFinderV5.ScoreOf | src/clip_finder_v5.py:192-196 | A failed scoring call gives 5.0, and a reply without "score" gives 5.0. |
| ClipFinderV5.ScoredSpec | src/clip_finder_v5.py:176-199 | Scoring keeps every candidate, in order, and changes only score and analysis. A failed call gives 5.0. |
| ClipFinderV5.ScoreCandidates | src/clip_finder_v5.py:183-199 | The loop computes exactly `Scored`. |
| ClipFinderV5.ScoredCrashPersists | src/clip_finder_v5.py:191-197 | A reply that raises aborts the whole pass. |
| ClipFinderV5.CleanQuote | src/clip_finder_v5.py:271 | The strip of whitespace, then `"`, then `'` never lengthens the text and leaves no `'` at either end. |
| ClipFinderV5.PolishSpec | src/clip_finder_v5.py:247-249 | Only the quotable line changes, and only to a non-empty cleaned reply shorter than 100. Such a reply is always taken, and a failed call changes nothing. |
| ClipFinderV5.PolishQuotes | src/clip_finder_v5.py:233-251 | The loop computes exactly `Polished`. |
| ClipFinderV5.HigherScoreStrict | src/clip_finder_v5.py:73 | The descending score comparison is a strict weak order. |
| ClipFinderV5.ScoredGood | src/clip_finder_v5.py:67-70 | Scoring keeps candidates good. |
| ClipFinderV5.TopGood | src/clip_finder_v5.py:73-74 | Sorting and taking the first `max_clips` gives at most that many good clips, ordered by descending score. |
| ClipFinderV5.PolishedKeeps | src/clip_finder_v5.py:79 | Polishing keeps the order and goodness. |
| ClipFinderV5.FindClipsSpec | src/clip_finder_v5.py:46-82 | No candidates give []. Otherwise at most `max_clips` good clips, ordered by descending score. |
| ClipFinderV5.ClipFinderV5.constructor | src/clip_finder_v5.py:43-44 | Five clips at most, no transcript stored. |
| ClipFinderV5.ClipFinderV5.CollectCandidates | src/clip_finder_v5.py:135-170 | The candidate loop computes exactly `CandidatesFrom`. |
| ClipFinderV5.ClipFinderV5.FindCandidates | src/clip_finder_v5.py:131-174 | Pass 1 computes exactly `Candidates` on the stored transcript. |
| ClipFinderV5.ClipFinderV5.FindClips | src/clip_finder_v5.py:46-82 | Stores the transcript and returns the three passes over the 40000-character text. |
| ClipIdentifier.SegmentLine | src/clip_identifier.py:152 | A segment line starts with `[`. |
| ClipIdentifier.OverlapTextAt | src/clip_identifier.py:161-165 | The overlap is the one line of the last segment before the first one starting at or after `segment.start - 30`, and is empty when there is none. |
| ClipIdentifier.SplitStepShape | src/clip_identifier.py:154-172 | Each step keeps the chunks non-empty and the first chunk starting at the first segment. |
| ClipIdentifier.SplitStepNewLine | src/clip_identifier.py:154-172 | After a step, the segment's line is in the open chunk. |
| ClipIdentifier.SplitStepOldLine | src/clip_identifier.py:154-172 | A line already placed stays in a chunk. |
| ClipIdentifier.SplitStepKeeps | src/clip_identifier.py:151-172 | One step keeps the chunking invariant. |
| ClipIdentifier.RunSplitterInvariant | src/clip_identifier.py:151-172 | After any prefix, every line seen is in a chunk or the open one. |
| ClipIdentifier.SplitChunksSpec | src/clip_identifier.py:140-178 | There are no chunks iff there are no segments. Every chunk is non-empty. Every segment line is in some chunk. The first chunk starts at the first segment. |
| ClipIdentifier.OverlapScan | src/clip_identifier.py:161-165 | The overlap loop computes exactly `OverlapText`. |
| ClipIdentifier.SplitSegment | src/clip_identifier.py:152-172 | One iteration (flush when the line overflows, overlap, start time) computes exactly `SplitStep`. |
| ClipIdentifier.SplitTranscriptIntoChunks | src/clip_identifier.py:140-178 | The loop and the final flush compute exactly `SplitChunks`. |
| ClipIdentifier.ClipFrom | src/clip_identifier.py:206-222 | A kept clip lasts at most the maximum (exactly the maximum is kept) and carries the chunk's video id. |
| ClipIdentifier.ClipsFromSound | src/clip_identifier.py:204-224 | Every clip of a list that does not raise is within the maximum. |
| ClipIdentifier.ClipsCrashPersists | src/clip_identifier.py:226-231 | An element that raises empties the chunk. |
| ClipIdentifier.ChunkClips | src/clip_identifier.py:190-231 | A chunk's clips are within the maximum and belong to the video. |
| ClipIdentifier.CollectChunkClips | src/clip_identifier.py:203-224 | The loop computes exactly `ClipsFrom`. |
| ClipIdentifier.ProcessChunk | src/clip_identifier.py:180-231 | One chunk computes exactly `ChunkClips`. |
| ClipIdentifier.HigherScoreStrict | src/clip_identifier.py:239 | The descending score comparison is a strict weak order. |
| ClipIdentifier.EmptyNeverDuplicate | src/clip_identifier.py:250-259 | A clip of non-positive length is never a duplicate, so the division by its duration never happens at zero. |
| ClipIdentifier.KeepUniqueSpec | src/clip_identifier.py:241-262 | The kept clips are a subsequence. No kept clip duplicates an earlier kept one. Every dropped clip duplicates a kept clip of its own video. |
| ClipIdentifier.HasDuplicate | src/clip_identifier.py:244-259 | The inner loop finds a duplicate iff one of the kept clips has the same video and overlaps more than half of the clip. |
| ClipIdentifier.KeepUniqueAt | src/clip_identifier.py:242-262 | One outer step keeps a clip iff it duplicates none of those kept. |
| ClipIdentifier.KeepUniqueClips | src/clip_identifier.py:241-264 | The outer loop computes exactly `KeepUnique`. |
| ClipIdentifier.DeduplicateClips | src/clip_identifier.py:233-264 | Deduplication computes exactly `KeepUnique` of the score-sorted clips. |
| ClipIdentifier.DeduplicatedSorted | src/clip_identifier.py:132-135 | The deduplicated list is already ordered by descending score, so the final sort changes nothing. |
| ClipIdentifier.IdentifyClips | src/clip_identifier.py:96-138 | The result is the deduplicated clips of all chunks, ordered by descending score. |
| ClipIdentifier.IdentifiedClipsSpec | src/clip_identifier.py:115-135 | Every returned clip came from some chunk, is within the maximum and belongs to the video. |
| ClipIdentifier.AllClipsBounded | src/clip_identifier.py:115-126 | All chunks' clips are within the maximum. |
| Transcriber.SegmentsWithinSelects | src/transcriber.py:36-42 | `get_text_at_time` takes exactly the segments contained in the window, in order. |
| Transcriber.GetTextAtTimeIgnoresStraddling | src/transcriber.py:38-41 | A segment straddling the window's start is not included: containment, not overlap. |
| Transcriber.StripIdempotent | src/transcriber.py:218 | Stripping a stripped text changes nothing. |
| Transcriber.EventSegmentSpec | src/transcriber.py:206-225 | An event without `segs` gives no segment. Otherwise a segment exists iff the stripped utf8 text is non-empty. It spans tStartMs/1000 to (tStartMs + dDurationMs)/1000, missing fields 0. |
| Transcriber.EventsToSegments | src/transcriber.py:206-225 | At most one segment per event. |
| Transcriber.EventsToSegmentsTexts | src/transcriber.py:218-225 | Every caption segment text is non-empty and stripped. |
| Transcriber.PiecesLoop | src/transcriber.py:213-218 | The utf8 loop joins exactly the parts that have text. |
| Transcriber.ConvertEvent | src/transcriber.py:207-224 | One event converts to exactly `EventSegment`. |
| Transcriber.CaptionSegments | src/transcriber.py:203-225 | The event loop collects exactly the segments and their texts. |
| Transcriber.CaptionTranscript | src/transcriber.py:203-238 | No segments give None. Otherwise the transcript is in English, with full text the space-join of the segment texts. |
| Transcriber.WhisperTranscriptClean | src/transcriber.py:143-157 | One segment per Whisper segment with the same times. Every stored text is already stripped, so stripping it again changes nothing. |
| Transcriber.SegmentsFromJson | src/transcriber.py:311-314 | One segment per object when none fails. |
| Transcriber.SegmentsRoundTrip | src/transcriber.py:291-314 | Saving segments and reading them back gives the same segments. |
| Transcriber.SegmentMapsLoad | src/transcriber.py:311-314 | Loading the saved dictionaries gives the segments back. |
| Transcriber.SaveLoadRoundTrip | src/transcriber.py:287-321 | Save then load gives back the transcript: segments, full text and language. |
| Transcriber.LoadDefaultsLanguage | src/transcriber.py:320 | A saved transcript without "language" loads as English. |
| YouTubeMonitor.Component | src/youtube_monitor.py:181 | An optional `(\d+)U` group never moves backwards or past the end. |
| YouTubeMonitor.ParseDuration | src/youtube_monitor.py:178-190 | The result is never negative, and a string not starting with "PT" gives 0. |
| YouTubeMonitor.HoursGroup | src/youtube_monitor.py:181-186 | The hours group of `PT[h H][m M][s S]` reads h, or 0 when absent. |
| YouTubeMonitor.MinutesGroup | src/youtube_monitor.py:181-187 | The minutes group reads m, or 0 when absent. |
| YouTubeMonitor.SecondsGroup | src/youtube_monitor.py:181-188 | The seconds group reads s, or 0 when absent. |
| YouTubeMonitor.ParseDurationOf | src/youtube_monitor.py:186-190 | The groups' values combine as 3600 h + 60 m + s. |
| YouTubeMonitor.ParseDurationRoundTrip | src/youtube_monitor.py:178-190 | Any components in H, M, S order, each optional, give 3600 h + 60 m + s ("PT" alone gives 0), and text after the seconds is ignored. |
| YouTubeMonitor.IsLikelyPodcastSpec | src/youtube_monitor.py:232-244 | A video passes iff its duration is unknown, 0 or at least 600, and no skip keyword is in its lower-cased title. |
| RssMonitor.ReplaceZulu | src/rss_monitor.py:97 | No `Z` is left. |
| RssMonitor.EntryVideo | src/rss_monitor.py:91-132 | An entry gives a video iff it has id, title and a parsable published time at or after the cutoff. The video has the entry's fields, the channel's name, id and handle, the description or "", the thumbnail URL or None, and no duration. |
| RssMonitor.ChannelVideosAppend | src/rss_monitor.py:90-132 | Entries are read independently: a malformed entry never costs its neighbours. |
| RssMonitor.ChannelVideosSingle | src/rss_monitor.py:100-102 | One entry contributes its video or nothing. |
| RssMonitor.ChannelVideosRecent | src/rss_monitor.py:100-128 | Every video is from this channel and published at or after the cutoff. |
| RssMonitor.GetChannelVideos | src/rss_monitor.py:61-142 | A failed fetch gives []. Otherwise the entry loop computes exactly `ChannelVideos`. |
| RssMonitor.AllVideosAppend | src/rss_monitor.py:158-163 | The merge concatenates in channel order. |
| RssMonitor.AllVideosSkipsRaised | src/rss_monitor.py:159-163 | A channel whose task raised contributes nothing. |
| RssMonitor.AllVideosRecent | src/rss_monitor.py:144-166 | Every merged video is at or after the cutoff. |
| RssMonitor.CheckAllChannels | src/rss_monitor.py:144-166 | The merge loop computes exactly `AllVideos`. |
| RssMonitor.IsLikelyPodcastSpec | src/rss_monitor.py:168-178 | A video passes iff no skip keyword (including "clip") is in its lower-cased title: there is no duration check. |
| FetchClips.MarkPosted | scripts/fetch_clips.py:68-70 | `posted` is whether `video_id_start_time` is a posted id. Nothing else changes. |
| FetchClips.MarkAll | scripts/fetch_clips.py:68-70 | Every clip is marked, in order. |
| FetchClips.LaterPublishedStrict | scripts/fetch_clips.py:73 | Descending `published_at` comparison is a strict weak order. |
| FetchClips.SavedOrdered | scripts/fetch_clips.py:73-77 | The saved clips are ordered newest first. |
| FetchClips.SavedMembers | scripts/fetch_clips.py:68-77 | A clip is saved iff it is a marked input clip published or created after the cutoff (string order). |
| FetchClips.SavedPosted | scripts/fetch_clips.py:68-70 | Every saved clip carries its correct posted flag. |
| FetchClips.SavedCounts | scripts/fetch_clips.py:79-86 | `total_clips` is the retained count, and `unposted_clips` is the number of retained clips not posted. |
| FetchClips.SaveClips | scripts/fetch_clips.py:63-87 | The marking loop, the sort and the retention compute exactly `SavedClips`. |
| FetchClips.KeysOf | scripts/fetch_clips.py:151 | Every clip's `(video_id, start_time)` key is collected. |
| FetchClips.DedupeSubsequence | scripts/fetch_clips.py:145-154 | The unique clips are a subsequence with the same keys. |
| FetchClips.DedupeDistinct | scripts/fetch_clips.py:148-154 | No two unique clips share a key. |
| FetchClips.DedupePrefix | scripts/fetch_clips.py:145-154 | The unique existing clips are a prefix of the result, so existing clips win over new ones. |
| FetchClips.DedupeUnseen | scripts/fetch_clips.py:152-154 | A clip with an unseen key is appended. |
| FetchClips.DedupeFirst | scripts/fetch_clips.py:150-154 | The first clip with a key is the one kept. |
| FetchClips.DedupeClips | scripts/fetch_clips.py:148-154 | The loop with its `seen` set computes exactly `Dedupe`. |
| FetchClips.NewPodcastsSpec | scripts/fetch_clips.py:114-118 | A video is new iff it passes the podcast filter and has not been processed. Order is kept. |
| FetchClips.WithThumbnail | scripts/fetch_clips.py:132-135 | Each clip gets the video's thumbnail and nothing else changes. |
| FetchClips.ProcessedAfterSpec | scripts/fetch_clips.py:129-140 | Every video processed is recorded, whether processing succeeded or failed. |
| FetchClips.ProcessVideos | scripts/fetch_clips.py:128-140 | The loop collects exactly `NewClips` and `ProcessedAfter`. |
| FetchClips.RunProcessedIds | scripts/fetch_clips.py:118-158 | The processed ids are saved iff there are new podcasts, and then they are the old ids plus the new podcasts' ids. |
| FetchClips.MergedSpec | scripts/fetch_clips.py:145-154 | The merge keeps the unique existing clips first and loses no key. |
| FetchClips.RunMain | scripts/fetch_clips.py:104-158 | After loading, the run computes exactly `Run` over the merged feed videos. |
| TierBatch.LabelsIn | test_tier_batch.py:67 | One `trigger (nx)` label per trigger, in order. |
| TierBatch.PhrasesAreMatchedTriggers | test_tier_batch.py:62-67 | The matched phrases are the labels of exactly the triggers that hit, in trigger-list order. |
| TierBatch.TriggerCountZero | test_tier_batch.py:60-67 | A count is 0 iff no trigger is empty and none occurs in the text. |
| TierBatch.PatternEntrySpec | test_tier_batch.py:69-76 | An entry exists iff the count is positive. It carries name and weight, `weighted_score` = count × weight, and at most 5 phrases in trigger order. |
| TierBatch.ScanMembers | test_tier_batch.py:59-78 | The result holds exactly the entries of the patterns that hit. |
| TierBatch.CountTriggers | test_tier_batch.py:60-67 | The trigger loop adds up exactly `TriggerCount` and `Phrases`. |
| TierBatch.QuickPatternScan | test_tier_batch.py:51-78 | The scan computes exactly `Scan` on the lower-cased text. |
| TierBatch.YieldBounds | test_tier_batch.py:250-253 | The estimate is between 0 and the cap times the number of transcripts, and at most the total pattern count. |
| TierBatch.YieldCap | test_tier_batch.py:250-253 | Each transcript adds at most the cap. |
| TierBatch.YieldPatterns | test_tier_batch.py:250-253 | Each transcript adds at most its pattern count. |
| TierBatch.YieldAppend | test_tier_batch.py:250-253 | The estimate adds up over transcripts. |
| TierBatch.YieldSkipsLow | test_tier_batch.py:252 | A transcript below ten times the threshold adds nothing, wherever it stands. |
| TierBatch.EstimatedYield | test_tier_batch.py:250-253 | The counter loop computes exactly `Yield`. |

## Left out

- Language-model calls, `json.loads`, prompt templates.
  - The calls are inputs: `chat(prompt)`, None when the call raises.
  - `json.loads` is the partial function `loads`.
  - Prompts are opaque functions of what they quote, so the prompt wording is not modelled.
- Python `float(str)` is the parameter `parseFloat`. The `:.0f` and `:.1f` renderings are the parameters `fmt0` and `fmt1`.
- Timestamps, weights and scores are exact `real`s, not IEEE doubles.
- `asyncio.gather` and `asyncio.sleep`: concurrent replies are read one after the other. The throttling delays are not modelled.
- Files, the clock and the environment:
  - cached transcripts, JSON state files, channels.json, the `GROQ_API_KEY` check;
  - the current time, which enters as cutoff and timestamp parameters.
- ClipFinderV3.BuildChannelTiers: the tiers read from channels.json are strings. The source stores any JSON value from `ch.get("tier", "B")`, so a `null` tier would reach `get_tier_settings(None)` and fall back to tier B's defaults.
- The RSS channel table `CHANNEL_IDS` enters as the list of channel tasks.
- Fetching, XML parsing, YouTube Data API calls, quota accounting, caches, Whisper, yt-dlp, ffmpeg.
- The rest of the repository is not part of this model:
  - the database, the Telegram bot, the orchestrators, the scheduler;
  - the printing report of the tier batch.
- Objects that the source mutates in place are modelled as values: v3 and v5 scores, v5 quotable lines, posted flags, thumbnails. Each caller uses only the updated list, so aliasing and in-place update are not captured.
- ClipFinderV3.FindClips: the `tier == "C"` log branch only logs and is not modelled.
- ClipFinderV4.FormatTranscript: `int(n * 0.4)` and its siblings are exact floors of n·40/100, without float rounding of the product.
- ClipFinderV5.FormatTranscript: the same exact-floor reading of `int(n*0.3)` and friends.
- ClipIdentifier.ClipFrom: a non-numeric or null "score" counts as raising, so the whole chunk yields []. In the source the dataclass stores the value unconverted and the clip is kept.
- ClipIdentifier.IdentifyClips: by the same reading, clips with a non-numeric score are lost with their chunk. In the source they are kept, and the score sorts raise only when they compare incomparable values.
- ClipFinderV5.ScoreOf: a non-numeric "score" counts as raising at once. In the source it is stored and raises only when the sort compares it with a number.
- ClipFinderV5.FindClipsSpec: the `if not scored` fallback of `find_clips` is not reachable, because pass 2 returns a list as long as its non-empty input. The model computes the same result.
- Text.Lower: `str.lower` is modelled on ASCII letters only. Other characters are unchanged.
- YouTubeMonitor.ParseDuration: `\d` is read as the ASCII digits 0-9. Python also accepts other Unicode decimal digits, such as '٣'.
- ClipFinderV4.NumberAt: the same ASCII reading of `\d` in the fallback clip regex.
- ClipFinderV3.BonusFactors: the digit bonus reads `c.isdigit()` as the ASCII digits 0-9. Python's `isdigit` is also true for characters such as '²' and '٣'.
- RssMonitor.EntryVideo: a `yt:videoId` or `atom:title` element with no text gives None in the source, and the video is still kept with that None. The model's fields are strings, so such an element is read as a missing child, and the entry gives no video.
- RssMonitor.EntryVideo: `datetime.fromisoformat` is the parameter `fromIso`, and the comparison with the cutoff uses whole seconds of wall-clock time. Fractional seconds are not modelled.
- Non-string JSON values in text fields (a number as "quotable_line", say) read as "" or None. In the source they flow through unchanged and fail later, if at all.
- Python's `True == 1` and `False == 0`: a JSON boolean read where a number is expected counts as 1 or 0 throughout (`Json.AsNumber`), for the v3 and v4 times, the v5 score and the clip identifier's times and score.
- FetchClips.KeyOf: the dedupe key keeps a boolean and a number apart, so `(vid, True)` and `(vid, 1)` are two keys here, where Python treats them as one.
- `should_process_channel` and `get_channel_notes` of the v3 finder are not part of this model. They are not used by the selection pipeline.
