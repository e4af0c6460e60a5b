/**
 * The RSS feed monitor (src/rss_monitor.py): the per-entry reading of a channel's
 * Atom feed with its published-time cutoff, the merge of all channels' results and
 * the title-only podcast filter. Fetching and XML parsing are not modelled: a feed
 * arrives as its list of entries, already located by element name.
 */
module RssMonitor {
  import opened Wrappers
  import opened Seqs
  import opened Text

  /** `datetime.fromisoformat` output: the wall-clock time in seconds and the UTC
      offset in seconds, if the string had one. */
  datatype DateTime = DateTime(wall: int, utcOffset: Option<int>)

  /** The `media:group` element: the text of its `media:description` child
      (None when the child or its text is missing) and its `media:thumbnail` child
      (None when missing, otherwise the `url` attribute, itself optional). */
  datatype MediaGroup = MediaGroup(description: Option<string>, thumbnail: Option<Option<string>>)

  /** One `atom:entry`: the text of its `yt:videoId`, `atom:title` and `atom:published`
      children (None when the child is missing) and its optional media group. */
  datatype Entry = Entry(
    videoId: Option<string>, title: Option<string>, published: Option<string>, media: Option<MediaGroup>)

  datatype VideoInfo = VideoInfo(
    videoId: string, title: string, channelName: string, channelId: string, description: string,
    publishedAt: DateTime, thumbnailUrl: Option<string>, durationSeconds: Option<int>, channelXHandle: string)

  datatype Channel = Channel(name: string, id: string, xHandle: string)

  /** `s.replace('Z', '+00:00')`. */
  function ReplaceZulu(s: string): (r: string)
    ensures 'Z' !in r
    ensures |r| >= |s|
    decreases |s|
  {
    if s == [] then []
    else ReplaceZulu(s[..|s| - 1]) + (if s[|s| - 1] == 'Z' then "+00:00" else [s[|s| - 1]])
  }

  /** The description: the element's text when present and non-empty, else "". */
  function DescriptionOf(media: Option<MediaGroup>): string {
    if media.Some? && media.value.description.Some? && media.value.description.value != "" then media.value.description.value
    else ""
  }

  /** The thumbnail: the `url` attribute of `media:thumbnail`, or None. */
  function ThumbnailOf(media: Option<MediaGroup>): Option<string> {
    if media.Some? && media.value.thumbnail.Some? then media.value.thumbnail.value else None
  }

  /** The body of the entry loop: None when the entry raises (a missing child, an
      unparsable date: `fromIso` gives None where `fromisoformat` raises) or is older
      than the cutoff, which is compared with the wall-clock time, offset dropped. */
  function EntryVideo(entry: Entry, channel: Channel, cutoff: int, fromIso: string -> Option<DateTime>): (r: Option<VideoInfo>)
    ensures r.Some? <==>
      && entry.videoId.Some? && entry.title.Some? && entry.published.Some?
      && fromIso(ReplaceZulu(entry.published.value)).Some?
      && fromIso(ReplaceZulu(entry.published.value)).value.wall >= cutoff
    ensures r.Some? ==>
      && r.value.videoId == entry.videoId.value && r.value.title == entry.title.value
      && r.value.publishedAt == fromIso(ReplaceZulu(entry.published.value)).value
      && r.value.channelName == channel.name && r.value.channelId == channel.id
      && r.value.channelXHandle == channel.xHandle
      && r.value.description == DescriptionOf(entry.media)
      && r.value.thumbnailUrl == ThumbnailOf(entry.media)
      && r.value.durationSeconds.None?
  {
    if entry.videoId.None? || entry.title.None? || entry.published.None? then None
    else
      var published :- fromIso(ReplaceZulu(entry.published.value));
      if published.wall < cutoff then None
      else Some(VideoInfo(entry.videoId.value, entry.title.value, channel.name, channel.id,
                          DescriptionOf(entry.media), published, ThumbnailOf(entry.media), None, channel.xHandle))
  }

  function EntryFn(channel: Channel, cutoff: int, fromIso: string -> Option<DateTime>): Entry -> Option<VideoInfo> {
    (e: Entry) => EntryVideo(e, channel, cutoff, fromIso)
  }

  /** The videos a channel's entries yield, in feed order. */
  function ChannelVideos(entries: seq<Entry>, channel: Channel, cutoff: int, fromIso: string -> Option<DateTime>): seq<VideoInfo> {
    Collect(entries, EntryFn(channel, cutoff, fromIso))
  }

  /** Each entry is read on its own: the videos of `a + b` are those of `a` followed
      by those of `b`, so a malformed entry never costs the entries around it. */
  lemma ChannelVideosAppend(a: seq<Entry>, b: seq<Entry>, channel: Channel, cutoff: int, fromIso: string -> Option<DateTime>)
    ensures ChannelVideos(a + b, channel, cutoff, fromIso)
      == ChannelVideos(a, channel, cutoff, fromIso) + ChannelVideos(b, channel, cutoff, fromIso)
  {
    CollectAppend(a, b, EntryFn(channel, cutoff, fromIso));
  }

  /** A malformed or old entry contributes nothing; a well-formed one published
      exactly at the cutoff contributes its video. */
  lemma ChannelVideosSingle(e: Entry, channel: Channel, cutoff: int, fromIso: string -> Option<DateTime>)
    ensures ChannelVideos([e], channel, cutoff, fromIso)
      == (var v := EntryVideo(e, channel, cutoff, fromIso); if v.Some? then [v.value] else [])
  {
    assert [e][..0] == [];
  }

  /** Every video returned is from this channel and published at or after the cutoff. */
  lemma ChannelVideosRecent(entries: seq<Entry>, channel: Channel, cutoff: int, fromIso: string -> Option<DateTime>)
    ensures forall v :: v in ChannelVideos(entries, channel, cutoff, fromIso) ==>
      v.publishedAt.wall >= cutoff && v.channelId == channel.id && v.channelName == channel.name
  {
    CollectMembers(entries, EntryFn(channel, cutoff, fromIso));
  }

  /** The entry loop of `get_channel_videos`; `feed` is None when the request fails,
      times out or the XML does not parse, all of which return []. */
  method GetChannelVideos(feed: Option<seq<Entry>>, channel: Channel, cutoff: int, fromIso: string -> Option<DateTime>)
    returns (videos: seq<VideoInfo>)
    ensures videos == if feed.None? then [] else ChannelVideos(feed.value, channel, cutoff, fromIso)
  {
    if feed.None? {
      return [];
    }
    var entries := feed.value;
    videos := [];
    var i := 0;
    while i < |entries|
      invariant 0 <= i <= |entries|
      invariant videos == ChannelVideos(entries[..i], channel, cutoff, fromIso)
    {
      assert entries[..i + 1][..i] == entries[..i];
      var v := EntryVideo(entries[i], channel, cutoff, fromIso);
      if v.Some? {
        videos := videos + [v.value];
      }
      i := i + 1;
    }
    assert entries[..i] == entries;
  }

  // ---------------------------------------------------------------------------
  // `check_all_channels`

  /** What `asyncio.gather(..., return_exceptions=True)` yields for one channel: the
      channel's feed, or an exception its task raised. */
  datatype ChannelTask = Raised | Fetched(channel: Channel, feed: Option<seq<Entry>>)

  function TaskVideos(t: ChannelTask, cutoff: int, fromIso: string -> Option<DateTime>): seq<VideoInfo> {
    if t.Raised? || t.feed.None? then [] else ChannelVideos(t.feed.value, t.channel, cutoff, fromIso)
  }

  function TaskFn(cutoff: int, fromIso: string -> Option<DateTime>): ChannelTask -> seq<VideoInfo> {
    (t: ChannelTask) => TaskVideos(t, cutoff, fromIso)
  }

  /** All channels' videos, in channel order; a raised task contributes nothing. */
  function AllVideos(tasks: seq<ChannelTask>, cutoff: int, fromIso: string -> Option<DateTime>): seq<VideoInfo> {
    ConcatMap(tasks, TaskFn(cutoff, fromIso))
  }

  lemma AllVideosAppend(a: seq<ChannelTask>, b: seq<ChannelTask>, cutoff: int, fromIso: string -> Option<DateTime>)
    ensures AllVideos(a + b, cutoff, fromIso) == AllVideos(a, cutoff, fromIso) + AllVideos(b, cutoff, fromIso)
  {
    ConcatMapAppend(a, b, TaskFn(cutoff, fromIso));
  }

  /** Dropping a raised task changes nothing: the other channels' videos stay, in order. */
  lemma AllVideosSkipsRaised(a: seq<ChannelTask>, b: seq<ChannelTask>, cutoff: int, fromIso: string -> Option<DateTime>)
    ensures AllVideos(a + [Raised] + b, cutoff, fromIso) == AllVideos(a + b, cutoff, fromIso)
  {
    AllVideosAppend(a + [Raised], b, cutoff, fromIso);
    AllVideosAppend(a, b, cutoff, fromIso);
    assert (a + [Raised])[..|a|] == a;
  }

  /** Every merged video was published at or after the cutoff. */
  lemma AllVideosRecent(tasks: seq<ChannelTask>, cutoff: int, fromIso: string -> Option<DateTime>)
    ensures forall v :: v in AllVideos(tasks, cutoff, fromIso) ==> v.publishedAt.wall >= cutoff
  {
    forall v | v in AllVideos(tasks, cutoff, fromIso) ensures v.publishedAt.wall >= cutoff {
      ConcatMapMembers(tasks, TaskFn(cutoff, fromIso), v);
      var k :| 0 <= k < |tasks| && v in TaskVideos(tasks[k], cutoff, fromIso);
      var t := tasks[k];
      ChannelVideosRecent(t.feed.value, t.channel, cutoff, fromIso);
    }
  }

  /** The merge loop of `check_all_channels`, over the gathered results in
      channel-table order. */
  method CheckAllChannels(tasks: seq<ChannelTask>, cutoff: int, fromIso: string -> Option<DateTime>)
    returns (allVideos: seq<VideoInfo>)
    ensures allVideos == AllVideos(tasks, cutoff, fromIso)
  {
    allVideos := [];
    var i := 0;
    while i < |tasks|
      invariant 0 <= i <= |tasks|
      invariant allVideos == AllVideos(tasks[..i], cutoff, fromIso)
    {
      assert tasks[..i + 1][..i] == tasks[..i];
      var t := tasks[i];
      if t.Fetched? {
        var videos := GetChannelVideos(t.feed, t.channel, cutoff, fromIso);
        allVideos := allVideos + videos;
      }
      i := i + 1;
    }
    assert tasks[..i] == tasks;
  }

  // ---------------------------------------------------------------------------
  // `is_likely_podcast`

  const SkipKeywords: seq<string> := ["shorts", "#shorts", "trailer", "teaser", "promo", "announcement", "clip"]

  /** Only the title is checked: feeds carry no duration. */
  function IsLikelyPodcast(video: VideoInfo): bool {
    !AnyContains(Lower(video.title), SkipKeywords)
  }

  /** A video passes iff no keyword (including "clip") occurs in its lower-cased title. */
  lemma IsLikelyPodcastSpec(video: VideoInfo)
    ensures IsLikelyPodcast(video) <==> forall k :: 0 <= k < |SkipKeywords| ==> !Contains(Lower(video.title), SkipKeywords[k])
  {
    AnyContainsSpec(Lower(video.title), SkipKeywords);
  }
}
