/**
 * The scheduled clip fetcher (scripts/fetch_clips.py): which feed videos are
 * processed, how each run's clips are merged with the saved ones and deduplicated,
 * and what `save_clips` writes (posted flags, newest-first order, the 14-day
 * retention window, the metadata counts). Files, the clock and the per-video
 * pipeline are parameters: the loaded state, a cutoff string, a timestamp string
 * and a `process` function.
 */
module FetchClips {
  import opened Wrappers
  import opened Seqs
  import opened Text
  import opened Json
  import Rss = RssMonitor

  /** A clip as the JSON object `clip.to_dict()` produces. */
  type Clip = map<string, Json>

  /** `clip.get(key)`. */
  function Field(c: Clip, key: string): Json { Get(c, key, JNull) }

  /** `f"{clip.get('video_id')}_{clip.get('start_time')}"`; `render` is Python's `str`
      of a JSON value. */
  function ClipId(c: Clip, render: Json -> string): string {
    render(Field(c, "video_id")) + "_" + render(Field(c, "start_time"))
  }

  // ---------------------------------------------------------------------------
  // `save_clips`

  /** One step of the marking loop: `clip['posted'] = clip_id in posted_ids`. */
  function MarkPosted(c: Clip, postedIds: set<string>, render: Json -> string): (r: Clip)
    ensures r.Keys == c.Keys + {"posted"}
    ensures r["posted"] == JBool(ClipId(c, render) in postedIds)
    ensures forall k :: k in c && k != "posted" ==> r[k] == c[k]
    ensures ClipId(r, render) == ClipId(c, render)
  {
    c["posted" := JBool(ClipId(c, render) in postedIds)]
  }

  /** The marking loop over the whole list. */
  function MarkAll(clips: seq<Clip>, postedIds: set<string>, render: Json -> string): (r: seq<Clip>)
    ensures |r| == |clips|
    ensures forall i :: 0 <= i < |clips| ==> r[i] == MarkPosted(clips[i], postedIds, render)
    decreases |clips|
  {
    if clips == [] then []
    else MarkAll(clips[..|clips| - 1], postedIds, render) + [MarkPosted(clips[|clips| - 1], postedIds, render)]
  }

  /** `c.get("published_at", "")`, and likewise `created_at` and `channel_name`. */
  function PublishedKey(c: Clip): string { TextOr(Get(c, "published_at", JStr("")), "") }
  function CreatedKey(c: Clip): string { TextOr(Get(c, "created_at", JStr("")), "") }
  function ChannelName(c: Clip): string { TextOr(Get(c, "channel_name", JStr("")), "") }

  /** The order of `sort(key=published_at, reverse=True)`: a later publication
      string goes first; equal keys keep their order. */
  function LaterPublished(): (Clip, Clip) -> bool {
    (a: Clip, b: Clip) => StrLess(PublishedKey(b), PublishedKey(a))
  }

  lemma LaterPublishedStrict()
    ensures StrictOrder(LaterPublished())
  {
    forall a: Clip ensures !LaterPublished()(a, a) {
      StrLessIrreflexive(PublishedKey(a));
    }
    forall a: Clip, b: Clip, c: Clip | LaterPublished()(a, b) && LaterPublished()(b, c)
      ensures LaterPublished()(a, c)
    {
      StrLessTransitive(PublishedKey(c), PublishedKey(b), PublishedKey(a));
    }
  }

  /** The retention test: published or created after the cutoff, as strings. */
  function Recent(cutoff: string): Clip -> bool {
    (c: Clip) => StrLess(cutoff, PublishedKey(c)) || StrLess(cutoff, CreatedKey(c))
  }

  /** `not c.get('posted')`. */
  function NotPosted(): Clip -> bool {
    (c: Clip) => !Truthy(Field(c, "posted"))
  }

  /** A clip whose id is not among the posted ids. */
  function Unposted(postedIds: set<string>, render: Json -> string): Clip -> bool {
    (c: Clip) => ClipId(c, render) !in postedIds
  }

  /** The `clips` list and `metadata` object written to the clips file. */
  datatype Saved = Saved(clips: seq<Clip>, totalClips: nat, unpostedClips: nat, generatedAt: string, channels: set<string>)

  function SavedClips(clips: seq<Clip>, postedIds: set<string>, cutoff: string, generatedAt: string, render: Json -> string): Saved {
    var kept := Filter(SortBy(MarkAll(clips, postedIds, render), LaterPublished()), Recent(cutoff));
    Saved(kept, |kept|, |Filter(kept, NotPosted())|, generatedAt, set c | c in kept :: ChannelName(c))
  }

  /** The saved clips are ordered newest first. */
  lemma SavedOrdered(clips: seq<Clip>, postedIds: set<string>, cutoff: string, generatedAt: string, render: Json -> string)
    ensures Ordered(SavedClips(clips, postedIds, cutoff, generatedAt, render).clips, LaterPublished())
  {
    var sorted := SortBy(MarkAll(clips, postedIds, render), LaterPublished());
    LaterPublishedStrict();
    SortByOrdered(MarkAll(clips, postedIds, render), LaterPublished());
    FilterIsSubsequence(sorted, Recent(cutoff));
    SubsequenceOrdered(Filter(sorted, Recent(cutoff)), sorted, LaterPublished());
  }

  /** A clip is saved iff it is one of the marked clips and it is recent. */
  lemma SavedMembers(clips: seq<Clip>, postedIds: set<string>, cutoff: string, generatedAt: string, render: Json -> string)
    ensures forall c :: c in SavedClips(clips, postedIds, cutoff, generatedAt, render).clips <==>
      c in MarkAll(clips, postedIds, render) && Recent(cutoff)(c)
  {
    var marked := MarkAll(clips, postedIds, render);
    var sorted := SortBy(marked, LaterPublished());
    forall c ensures c in Filter(sorted, Recent(cutoff)) <==> c in marked && Recent(cutoff)(c) {
      assert c in sorted <==> c in multiset(sorted);
      assert c in marked <==> c in multiset(marked);
      if c in marked && Recent(cutoff)(c) {
        FilterHas(sorted, Recent(cutoff), c);
      }
    }
  }

  /** Every saved clip is flagged posted iff its id is a posted id. */
  lemma SavedPosted(clips: seq<Clip>, postedIds: set<string>, cutoff: string, generatedAt: string, render: Json -> string)
    ensures forall c :: c in SavedClips(clips, postedIds, cutoff, generatedAt, render).clips ==>
      "posted" in c && c["posted"] == JBool(ClipId(c, render) in postedIds)
  {
    var marked := MarkAll(clips, postedIds, render);
    SavedMembers(clips, postedIds, cutoff, generatedAt, render);
    forall c | c in marked ensures "posted" in c && c["posted"] == JBool(ClipId(c, render) in postedIds) {
      var i :| 0 <= i < |marked| && marked[i] == c;
    }
  }

  /** `total_clips` is the number of saved clips, at most the number given, and
      `unposted_clips` the number of saved clips whose id was not posted. */
  lemma SavedCounts(clips: seq<Clip>, postedIds: set<string>, cutoff: string, generatedAt: string, render: Json -> string)
    ensures var saved := SavedClips(clips, postedIds, cutoff, generatedAt, render);
      && saved.totalClips == |saved.clips| <= |clips|
      && saved.unpostedClips == |Filter(saved.clips, Unposted(postedIds, render))| <= saved.totalClips
  {
    var saved := SavedClips(clips, postedIds, cutoff, generatedAt, render);
    SavedPosted(clips, postedIds, cutoff, generatedAt, render);
    FilterSame(saved.clips, NotPosted(), Unposted(postedIds, render));
  }

  /** `save_clips` without the file write; `cutoff` and `generatedAt` are the
      clock's `isoformat()` strings. */
  method SaveClips(clips: seq<Clip>, postedIds: set<string>, cutoff: string, generatedAt: string, render: Json -> string)
    returns (data: Saved)
    ensures data == SavedClips(clips, postedIds, cutoff, generatedAt, render)
  {
    var marked: seq<Clip> := [];
    var i := 0;
    while i < |clips|
      invariant 0 <= i <= |clips|
      invariant marked == MarkAll(clips[..i], postedIds, render)
    {
      assert clips[..i + 1][..i] == clips[..i];
      marked := marked + [MarkPosted(clips[i], postedIds, render)];
      i := i + 1;
    }
    assert clips[..i] == clips;
    var sorted := SortBy(marked, LaterPublished());
    var kept := Filter(sorted, Recent(cutoff));
    data := Saved(kept, |kept|, |Filter(kept, NotPosted())|, generatedAt, set c | c in kept :: ChannelName(c));
  }

  // ---------------------------------------------------------------------------
  // Deduplication in `main`

  /** `(clip.get("video_id"), clip.get("start_time"))`. */
  function KeyOf(c: Clip): (Json, Json) { (Field(c, "video_id"), Field(c, "start_time")) }

  function KeysOf(s: seq<Clip>): (r: set<(Json, Json)>)
    ensures forall i :: 0 <= i < |s| ==> KeyOf(s[i]) in r
    decreases |s|
  {
    if s == [] then {} else KeysOf(s[..|s| - 1]) + {KeyOf(s[|s| - 1])}
  }

  /** The clips the `seen`-set loop keeps: each clip whose key has not been seen yet. */
  function Dedupe(s: seq<Clip>): seq<Clip>
    decreases |s|
  {
    if s == [] then []
    else
      var init := s[..|s| - 1];
      if KeyOf(s[|s| - 1]) in KeysOf(init) then Dedupe(init) else Dedupe(init) + [s[|s| - 1]]
  }

  /** The kept clips appear in the input, in input order, and cover every key. */
  lemma {:induction false} DedupeSubsequence(s: seq<Clip>)
    ensures IsSubsequence(Dedupe(s), s)
    ensures KeysOf(Dedupe(s)) == KeysOf(s)
    decreases |s|
  {
    if s != [] {
      var init := s[..|s| - 1];
      var last := s[|s| - 1];
      assert init + [last] == s;
      DedupeSubsequence(init);
      if KeyOf(last) in KeysOf(init) {
        SubsequenceExtend(Dedupe(init), init, last);
      } else {
        SubsequenceAppend(Dedupe(init), init, last);
        var d := Dedupe(init) + [last];
        assert d[..|d| - 1] == Dedupe(init);
      }
    }
  }

  /** No two kept clips share a key. */
  lemma {:induction false} DedupeDistinct(s: seq<Clip>)
    ensures var r := Dedupe(s); forall i, j :: 0 <= i < j < |r| ==> KeyOf(r[i]) != KeyOf(r[j])
    decreases |s|
  {
    if s != [] {
      var init := s[..|s| - 1];
      DedupeDistinct(init);
      DedupeSubsequence(init);
    }
  }

  /** What is kept from a list stays kept, in front, when more clips follow. */
  lemma {:induction false} DedupePrefix(a: seq<Clip>, b: seq<Clip>)
    ensures Dedupe(a) <= Dedupe(a + b)
    decreases |b|
  {
    if b == [] {
      assert a + b == a;
    } else {
      var b' := b[..|b| - 1];
      assert (a + b)[..|a + b| - 1] == a + b';
      DedupePrefix(a, b');
    }
  }

  /** A clip with an unseen key is appended. */
  lemma DedupeUnseen(s: seq<Clip>, x: Clip)
    requires KeyOf(x) !in KeysOf(s)
    ensures Dedupe(s + [x]) == Dedupe(s) + [x]
  {
    assert (s + [x])[..|s|] == s;
  }

  /** The first clip with a given key is kept, wherever it stands; with `before`
      the existing clips, the saved clip for any of their keys is theirs. */
  lemma DedupeFirst(before: seq<Clip>, x: Clip, after: seq<Clip>)
    requires KeyOf(x) !in KeysOf(before)
    ensures x in Dedupe(before + [x] + after)
  {
    var d := Dedupe(before) + [x];
    DedupeUnseen(before, x);
    DedupePrefix(before + [x], after);
    assert Dedupe(before + [x] + after)[|d| - 1] == x;
  }

  method DedupeClips(all: seq<Clip>) returns (unique: seq<Clip>)
    ensures unique == Dedupe(all)
  {
    var seen: set<(Json, Json)> := {};
    unique := [];
    var i := 0;
    while i < |all|
      invariant 0 <= i <= |all|
      invariant seen == KeysOf(all[..i])
      invariant unique == Dedupe(all[..i])
    {
      assert all[..i + 1][..i] == all[..i];
      var key := KeyOf(all[i]);
      if key !in seen {
        seen := seen + {key};
        unique := unique + [all[i]];
      }
      i := i + 1;
    }
    assert all[..i] == all;
  }

  // ---------------------------------------------------------------------------
  // `main`

  function IsPodcast(): Rss.VideoInfo -> bool { (v: Rss.VideoInfo) => Rss.IsLikelyPodcast(v) }

  function NotProcessed(processed: set<string>): Rss.VideoInfo -> bool {
    (v: Rss.VideoInfo) => v.videoId !in processed
  }

  /** The podcasts among the feed videos that were not processed before. */
  function NewPodcasts(videos: seq<Rss.VideoInfo>, processed: set<string>): seq<Rss.VideoInfo> {
    Filter(Filter(videos, IsPodcast()), NotProcessed(processed))
  }

  lemma NewPodcastsSpec(videos: seq<Rss.VideoInfo>, processed: set<string>)
    ensures forall v :: v in NewPodcasts(videos, processed) <==>
      v in videos && Rss.IsLikelyPodcast(v) && v.videoId !in processed
    ensures IsSubsequence(NewPodcasts(videos, processed), videos)
  {
    var podcasts := Filter(videos, IsPodcast());
    forall v | v in videos && Rss.IsLikelyPodcast(v) && v.videoId !in processed
      ensures v in NewPodcasts(videos, processed)
    {
      FilterHas(videos, IsPodcast(), v);
      FilterHas(podcasts, NotProcessed(processed), v);
    }
    FilterIsSubsequence(videos, IsPodcast());
    FilterIsSubsequence(podcasts, NotProcessed(processed));
    SubsequenceTrans(NewPodcasts(videos, processed), podcasts, videos);
  }

  /** `clip_dict['thumbnail_url'] = video.thumbnail_url` on each of a video's clips. */
  function WithThumbnail(clips: seq<Clip>, thumbnail: Option<string>): (r: seq<Clip>)
    ensures |r| == |clips|
    ensures forall i :: 0 <= i < |r| ==>
      && r[i].Keys == clips[i].Keys + {"thumbnail_url"}
      && r[i]["thumbnail_url"] == (if thumbnail.Some? then JStr(thumbnail.value) else JNull)
      && forall k :: k in clips[i] && k != "thumbnail_url" ==> r[i][k] == clips[i][k]
    decreases |clips|
  {
    if clips == [] then []
    else
      WithThumbnail(clips[..|clips| - 1], thumbnail)
        + [clips[|clips| - 1]["thumbnail_url" := if thumbnail.Some? then JStr(thumbnail.value) else JNull]]
  }

  /** The clips of one video; `process` gives None where `process_video` raises. */
  function VideoClips(v: Rss.VideoInfo, process: Rss.VideoInfo -> Option<seq<Clip>>): seq<Clip> {
    if process(v).None? then [] else WithThumbnail(process(v).value, v.thumbnailUrl)
  }

  function NewClips(videos: seq<Rss.VideoInfo>, process: Rss.VideoInfo -> Option<seq<Clip>>): seq<Clip>
    decreases |videos|
  {
    if videos == [] then []
    else NewClips(videos[..|videos| - 1], process) + VideoClips(videos[|videos| - 1], process)
  }

  /** `processed_ids` after the loop adds each video's id. */
  function ProcessedAfter(videos: seq<Rss.VideoInfo>, processed: set<string>): set<string>
    decreases |videos|
  {
    if videos == [] then processed
    else ProcessedAfter(videos[..|videos| - 1], processed) + {videos[|videos| - 1].videoId}
  }

  /** Every processed video's id is recorded, whether processing succeeded or
      raised, and nothing else is added. */
  lemma {:induction false} ProcessedAfterSpec(videos: seq<Rss.VideoInfo>, processed: set<string>)
    ensures ProcessedAfter(videos, processed) == processed + set v | v in videos :: v.videoId
    decreases |videos|
  {
    if videos != [] {
      var init := videos[..|videos| - 1];
      ProcessedAfterSpec(init, processed);
      assert videos == init + [videos[|videos| - 1]];
      assert (set v | v in videos :: v.videoId) == (set v | v in init :: v.videoId) + {videos[|videos| - 1].videoId};
    }
  }

  /** The processing loop of `main`. */
  method ProcessVideos(videos: seq<Rss.VideoInfo>, processed: set<string>, process: Rss.VideoInfo -> Option<seq<Clip>>)
    returns (newClips: seq<Clip>, processedIds: set<string>)
    ensures newClips == NewClips(videos, process)
    ensures processedIds == ProcessedAfter(videos, processed)
  {
    newClips := [];
    processedIds := processed;
    var i := 0;
    while i < |videos|
      invariant 0 <= i <= |videos|
      invariant newClips == NewClips(videos[..i], process)
      invariant processedIds == ProcessedAfter(videos[..i], processed)
    {
      assert videos[..i + 1][..i] == videos[..i];
      var video := videos[i];
      var clips := process(video);
      if clips.Some? {
        var j := 0;
        var withThumb: seq<Clip> := [];
        while j < |clips.value|
          invariant 0 <= j <= |clips.value|
          invariant withThumb == WithThumbnail(clips.value[..j], video.thumbnailUrl)
        {
          assert clips.value[..j + 1][..j] == clips.value[..j];
          var clipDict := clips.value[j]["thumbnail_url" := if video.thumbnailUrl.Some? then JStr(video.thumbnailUrl.value) else JNull];
          withThumb := withThumb + [clipDict];
          j := j + 1;
        }
        assert clips.value[..j] == clips.value;
        newClips := newClips + withThumb;
      }
      processedIds := processedIds + {video.videoId};
      i := i + 1;
    }
    assert videos[..i] == videos;
  }

  /** What a run writes: the saved clips, and the processed ids when they are saved
      (a run with no new podcasts saves the existing clips as they are and leaves
      the processed ids alone). */
  datatype RunResult = RunResult(saved: Saved, processedIds: Option<set<string>>)

  function Run(processed: set<string>, existing: seq<Clip>, postedIds: set<string>, videos: seq<Rss.VideoInfo>,
               process: Rss.VideoInfo -> Option<seq<Clip>>, cutoff: string, generatedAt: string, render: Json -> string): RunResult
  {
    var newOnes := NewPodcasts(videos, processed);
    if newOnes == [] then RunResult(SavedClips(existing, postedIds, cutoff, generatedAt, render), None)
    else
      var merged := Dedupe(existing + NewClips(newOnes, process));
      RunResult(SavedClips(merged, postedIds, cutoff, generatedAt, render), Some(ProcessedAfter(newOnes, processed)))
  }

  /** The processed ids are saved iff there were new podcasts, and then they gain
      exactly the new podcasts' ids. */
  lemma RunProcessedIds(processed: set<string>, existing: seq<Clip>, postedIds: set<string>, videos: seq<Rss.VideoInfo>,
                        process: Rss.VideoInfo -> Option<seq<Clip>>, cutoff: string, generatedAt: string, render: Json -> string)
    ensures var result := Run(processed, existing, postedIds, videos, process, cutoff, generatedAt, render);
      && (result.processedIds.None? <==> NewPodcasts(videos, processed) == [])
      && (result.processedIds.Some? ==>
            result.processedIds.value == processed + set v | v in NewPodcasts(videos, processed) :: v.videoId)
  {
    ProcessedAfterSpec(NewPodcasts(videos, processed), processed);
  }

  /** The merged list keeps the deduplicated existing clips in front (existing clips
      win over new ones with the same key) and loses no key. */
  lemma MergedSpec(existing: seq<Clip>, newClips: seq<Clip>)
    ensures Dedupe(existing) <= Dedupe(existing + newClips)
    ensures KeysOf(Dedupe(existing + newClips)) == KeysOf(existing + newClips)
  {
    DedupePrefix(existing, newClips);
    DedupeSubsequence(existing + newClips);
  }

  /** The body of `main` after the state is loaded: the feed merge and the rest. */
  method RunMain(processed: set<string>, existing: seq<Clip>, postedIds: set<string>,
              tasks: seq<Rss.ChannelTask>, feedCutoff: int, fromIso: string -> Option<Rss.DateTime>,
              process: Rss.VideoInfo -> Option<seq<Clip>>, cutoff: string, generatedAt: string, render: Json -> string)
    returns (result: RunResult)
    ensures result == Run(processed, existing, postedIds, Rss.AllVideos(tasks, feedCutoff, fromIso), process, cutoff, generatedAt, render)
  {
    var videos := Rss.CheckAllChannels(tasks, feedCutoff, fromIso);
    var podcasts := Filter(videos, IsPodcast());
    var newOnes := Filter(podcasts, NotProcessed(processed));
    if newOnes == [] {
      var saved := SaveClips(existing, postedIds, cutoff, generatedAt, render);
      return RunResult(saved, None);
    }
    var newClips, processedIds := ProcessVideos(newOnes, processed, process);
    var unique := DedupeClips(existing + newClips);
    var saved := SaveClips(unique, postedIds, cutoff, generatedAt, render);
    result := RunResult(saved, Some(processedIds));
  }
}
