/**
 * The pure parts of the YouTube Data API monitor (src/youtube_monitor.py): the
 * duration parser for the time part of an ISO 8601 duration (`PTnHnMnS`, the
 * time-component subset of section 4.4.3.2 of ISO 8601:2004, matched as a prefix) and
 * the podcast filter. The API client, the quota bookkeeping and the caches are not
 * part of this model.
 */
module YouTubeMonitor {
  import opened Wrappers
  import opened Text

  datatype VideoInfo = VideoInfo(
    videoId: string, title: string, description: string, channelName: string, channelId: string,
    publishedAt: int, durationSeconds: Option<int>, thumbnailUrl: Option<string>, channelXHandle: Option<string>)

  // ---------------------------------------------------------------------------
  // `_parse_duration`

  predicate IsUnit(u: char) { u == 'H' || u == 'M' || u == 'S' }

  /** The optional group `(?:(\d+)U)?` at `i`: its value and the index after it, or
      `(0, i)` when the digits there are not followed by `u`. */
  function Component(s: string, i: nat, u: char): (r: (nat, nat))
    requires i <= |s|
    ensures i <= r.1 <= |s|
  {
    var j := DigitRun(s, i);
    if i < j < |s| && s[j] == u then (DigitsValue(s[i..j]), j + 1) else (0, i)
  }

  /** `re.match(r"PT(?:(\d+)H)?(?:(\d+)M)?(?:(\d+)S)?", s)` turned into seconds; a string
      that does not start with "PT" gives 0. */
  function ParseDuration(s: string): (seconds: nat)
    ensures !StartsWith(s, "PT") ==> seconds == 0
  {
    if !StartsWith(s, "PT") then 0
    else
      var hours := Component(s, 2, 'H');
      var minutes := Component(s, hours.1, 'M');
      var secs := Component(s, minutes.1, 'S');
      hours.0 * 3600 + minutes.0 * 60 + secs.0
  }

  /** The text of one component, empty when it is absent. */
  function Part(n: Option<nat>, u: char): string {
    if n.None? then "" else NatToString(n.value) + [u]
  }

  /** The duration `PT[hH][mM][sS]` with the given components. */
  function IsoDuration(h: Option<nat>, m: Option<nat>, s: Option<nat>): string {
    "PT" + Part(h, 'H') + Part(m, 'M') + Part(s, 'S')
  }

  /** No `u` component starts `y`. */
  predicate NoComponent(y: string, u: char) {
    var d := DigitRun(y, 0);
    d == 0 || d == |y| || y[d] != u
  }

  lemma DigitRunShift(x: string, y: string)
    ensures DigitRun(x + y, |x|) == |x| + DigitRun(y, 0)
  {
    var d := DigitRun(y, 0);
    assert (x + y)[|x|..|x| + d] == y[0..d];
    assert |x| + d < |x + y| ==> (x + y)[|x| + d] == y[d];
    DigitRunOver(x + y, |x|, |x| + d);
  }

  lemma ComponentShift(x: string, y: string, u: char)
    ensures var c := Component(y, 0, u);
      Component(x + y, |x|, u) == (c.0, |x| + c.1)
  {
    DigitRunShift(x, y);
    var d := DigitRun(y, 0);
    assert (x + y)[|x|..|x| + d] == y[0..d];
    assert |x| + d < |x + y| ==> (x + y)[|x| + d] == y[d];
  }

  lemma PartComponent(p: Option<nat>, u: char, z: string)
    requires IsUnit(u)
    requires p.Some? || NoComponent(z, u)
    ensures Component(Part(p, u) + z, 0, u) == (p.GetOr(0), |Part(p, u)|)
  {
    if p.Some? {
      var d := NatToString(p.value);
      var y := Part(p, u) + z;
      assert y == d + ([u] + z);
      assert y[0..|d|] == d;
      assert y[|d|] == u;
      DigitRunOver(y, 0, |d|);
      NatToStringRoundTrip(p.value);
    } else {
      assert Part(p, u) + z == z;
    }
  }

  lemma PartNoComponent(p: Option<nat>, u': char, z: string, u: char)
    requires p.Some? && IsUnit(u') && u' != u
    ensures NoComponent(Part(p, u') + z, u)
  {
    var d := NatToString(p.value);
    var y := Part(p, u') + z;
    assert y == d + ([u'] + z);
    assert y[0..|d|] == d;
    assert y[|d|] == u';
    DigitRunOver(y, 0, |d|);
  }

  /** The hours group of `IsoDuration(h, m, sec) + rest`. */
  lemma HoursGroup(h: Option<nat>, m: Option<nat>, sec: Option<nat>, rest: string)
    requires sec.Some? || rest == []
    ensures Component(IsoDuration(h, m, sec) + rest, 2, 'H') == (h.GetOr(0), 2 + |Part(h, 'H')|)
  {
    var a, b, c := Part(h, 'H'), Part(m, 'M'), Part(sec, 'S');
    assert IsoDuration(h, m, sec) + rest == "PT" + (a + (b + (c + rest)));
    if h.None? {
      if m.Some? {
        PartNoComponent(m, 'M', c + rest, 'H');
      } else if sec.Some? {
        assert b + (c + rest) == c + rest;
        PartNoComponent(sec, 'S', rest, 'H');
      } else {
        assert b + (c + rest) == [];
      }
    }
    PartComponent(h, 'H', b + (c + rest));
    ComponentShift("PT", a + (b + (c + rest)), 'H');
  }

  /** The minutes group, read where the hours group ends. */
  lemma MinutesGroup(h: Option<nat>, m: Option<nat>, sec: Option<nat>, rest: string)
    requires sec.Some? || rest == []
    ensures Component(IsoDuration(h, m, sec) + rest, 2 + |Part(h, 'H')|, 'M')
      == (m.GetOr(0), 2 + |Part(h, 'H')| + |Part(m, 'M')|)
  {
    var a, b, c := Part(h, 'H'), Part(m, 'M'), Part(sec, 'S');
    assert IsoDuration(h, m, sec) + rest == ("PT" + a) + (b + (c + rest));
    if m.None? {
      if sec.Some? {
        PartNoComponent(sec, 'S', rest, 'M');
      } else {
        assert c + rest == [];
      }
    }
    PartComponent(m, 'M', c + rest);
    ComponentShift("PT" + a, b + (c + rest), 'M');
  }

  /** The seconds group, read where the minutes group ends. */
  lemma SecondsGroup(h: Option<nat>, m: Option<nat>, sec: Option<nat>, rest: string)
    requires sec.Some? || rest == []
    ensures Component(IsoDuration(h, m, sec) + rest, 2 + |Part(h, 'H')| + |Part(m, 'M')|, 'S').0 == sec.GetOr(0)
  {
    var a, b, c := Part(h, 'H'), Part(m, 'M'), Part(sec, 'S');
    assert IsoDuration(h, m, sec) + rest == ("PT" + a + b) + (c + rest);
    PartComponent(sec, 'S', rest);
    ComponentShift("PT" + a + b, c + rest, 'S');
  }

  lemma ParseDurationOf(s: string, hours: nat, i: nat, minutes: nat, k: nat, secs: nat)
    requires StartsWith(s, "PT") && i <= |s|
    requires Component(s, 2, 'H') == (hours, i) && Component(s, i, 'M') == (minutes, k) && k <= |s|
    requires Component(s, k, 'S').0 == secs
    ensures ParseDuration(s) == hours * 3600 + minutes * 60 + secs
  {
  }

  /** Components in H, M, S order, each optional, give 3600 h + 60 m + s (absent ones
      count as 0, so "PT" alone is 0); after a seconds component anything may follow. */
  lemma ParseDurationRoundTrip(h: Option<nat>, m: Option<nat>, sec: Option<nat>, rest: string)
    requires sec.Some? || rest == []
    ensures ParseDuration(IsoDuration(h, m, sec) + rest) == h.GetOr(0) * 3600 + m.GetOr(0) * 60 + sec.GetOr(0)
  {
    var s := IsoDuration(h, m, sec) + rest;
    var i, k := 2 + |Part(h, 'H')|, 2 + |Part(h, 'H')| + |Part(m, 'M')|;
    assert k <= |s| by {
      assert |s| == k + |Part(sec, 'S')| + |rest|;
    }
    assert StartsWith(s, "PT") by {
      assert s[..2] == "PT";
    }
    assert Component(s, 2, 'H') == (h.GetOr(0), i) by {
      HoursGroup(h, m, sec, rest);
    }
    assert Component(s, i, 'M') == (m.GetOr(0), k) by {
      MinutesGroup(h, m, sec, rest);
    }
    assert Component(s, k, 'S').0 == sec.GetOr(0) by {
      SecondsGroup(h, m, sec, rest);
    }
    ParseDurationOf(s, h.GetOr(0), i, m.GetOr(0), k, sec.GetOr(0));
  }

  // ---------------------------------------------------------------------------
  // `is_likely_podcast`

  const SkipKeywords: seq<string> := ["shorts", "#shorts", "trailer", "teaser", "promo", "announcement"]

  /** A known, non-zero duration under ten minutes rules a video out, and so does a
      skip keyword in its lower-cased title. */
  function IsLikelyPodcast(video: VideoInfo): bool {
    if video.durationSeconds.Some? && video.durationSeconds.value != 0 && video.durationSeconds.value < 600 then false
    else !AnyContains(Lower(video.title), SkipKeywords)
  }

  /** A video passes iff it is not known to be shorter than 600 s (an unknown or zero
      duration is not checked; exactly 600 passes) and no keyword occurs in its title. */
  lemma IsLikelyPodcastSpec(video: VideoInfo)
    ensures IsLikelyPodcast(video) <==>
      && (video.durationSeconds.None? || video.durationSeconds.value == 0 || video.durationSeconds.value >= 600)
      && forall k :: 0 <= k < |SkipKeywords| ==> !Contains(Lower(video.title), SkipKeywords[k])
  {
    AnyContainsSpec(Lower(video.title), SkipKeywords);
  }
}
