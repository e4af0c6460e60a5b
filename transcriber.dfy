/**
 * The transcript value type (src/transcriber.py): a list of timed segments,
 * the containment query `get_text_at_time`, the conversion of YouTube json3
 * caption events into segments, the Whisper segment mapping, and the
 * dictionary form a transcript is saved to and loaded from.
 */
module Transcriber {
  import opened Wrappers
  import opened Seqs
  import opened Text
  import opened Json

  /** One timed piece of speech; times are seconds. */
  datatype Segment = Segment(start: real, end: real, text: string)

  datatype Transcript = Transcript(videoId: string, segments: seq<Segment>, fullText: string, language: string)

  /** The segments starting at `t` or later. */
  function StartsFrom(t: real): Segment -> bool {
    (seg: Segment) => seg.start >= t
  }

  /** The texts of `segs`, in order. */
  function Texts(segs: seq<Segment>): (ts: seq<string>)
    ensures |ts| == |segs|
    ensures forall i :: 0 <= i < |segs| ==> ts[i] == segs[i].text
  {
    seq(|segs|, i requires 0 <= i < |segs| => segs[i].text)
  }

  /** The `f"[{seg.start:...}s] {seg.text}"` line of each segment, the clip finders'
      timestamped transcript; `fmt` renders the start with the finder's precision. */
  function TimestampedLines(segs: seq<Segment>, fmt: real -> string): (lines: seq<string>)
    ensures |lines| == |segs|
    ensures forall i :: 0 <= i < |segs| ==> lines[i] == "[" + fmt(segs[i].start) + "s] " + segs[i].text
  {
    seq(|segs|, i requires 0 <= i < |segs| => "[" + fmt(segs[i].start) + "s] " + segs[i].text)
  }

  // ---------------------------------------------------------------------------
  // get_text_at_time

  /** The segments lying entirely inside [start, end], in transcript order. */
  function SegmentsWithin(segs: seq<Segment>, start: real, end: real): seq<Segment> {
    Filter(segs, (seg: Segment) => start <= seg.start && seg.end <= end)
  }

  /** `Transcript.get_text_at_time`. */
  function GetTextAtTime(t: Transcript, start: real, end: real): string {
    Join(" ", Texts(SegmentsWithin(t.segments, start, end)))
  }

  /** The query selects exactly the fully contained segments, in transcript order. */
  lemma SegmentsWithinSelects(segs: seq<Segment>, start: real, end: real, x: Segment)
    ensures x in SegmentsWithin(segs, start, end) <==> x in segs && start <= x.start && x.end <= end
    ensures IsSubsequence(SegmentsWithin(segs, start, end), segs)
  {
    var p := (seg: Segment) => start <= seg.start && seg.end <= end;
    if x in segs && p(x) {
      FilterHas(segs, p, x);
    }
    FilterIsSubsequence(segs, p);
  }

  /** Containment, not overlap: a segment straddling the window contributes nothing. */
  lemma GetTextAtTimeIgnoresStraddling(seg: Segment, start: real, end: real)
    requires seg.start < start < seg.end
    ensures GetTextAtTime(Transcript("v", [seg], seg.text, "en"), start, end) == ""
  {
    var p := (s: Segment) => start <= s.start && s.end <= end;
    assert [seg][..0] == [];
    assert Filter([seg], p) == [];
  }

  // ---------------------------------------------------------------------------
  // Strip is idempotent (used for the texts segments carry)

  lemma StripIdempotent(s: string)
    ensures Strip(Strip(s)) == Strip(s)
  {
    var r := Strip(s);
    if r != [] {
      assert StripLeftBy(r, IsSpace) == r;
      assert StripRightBy(r, IsSpace) == r;
    }
  }

  // ---------------------------------------------------------------------------
  // json3 caption events

  /** One entry of an event's `segs` list; `utf8` is None when the key is absent. */
  datatype CaptionPiece = CaptionPiece(utf8: Option<string>)

  /** One json3 event; a field is None when its key is absent. */
  datatype CaptionEvent = CaptionEvent(tStartMs: Option<int>, dDurationMs: Option<int>, segs: Option<seq<CaptionPiece>>)

  /** `''.join(seg['utf8'] for seg in segs if 'utf8' in seg)`. */
  function PiecesText(pieces: seq<CaptionPiece>): string
    decreases |pieces|
  {
    if pieces == [] then ""
    else
      var last := pieces[|pieces| - 1];
      PiecesText(pieces[..|pieces| - 1]) + (if last.utf8.Some? then last.utf8.value else "")
  }

  /** The segment one event yields, if any. */
  function EventSegment(e: CaptionEvent): Option<Segment> {
    if e.segs.None? then None
    else
      var text := Strip(PiecesText(e.segs.value));
      if text != "" && text != "\n" then
        var startMs := e.tStartMs.GetOr(0);
        var durationMs := e.dDurationMs.GetOr(0);
        Some(Segment(startMs as real / 1000.0, (startMs + durationMs) as real / 1000.0, text))
      else None
  }

  /** An event without "segs" yields nothing; otherwise it yields a segment iff its
      stripped text is non-empty, timed from tStartMs and dDurationMs (0 when absent),
      carrying that stripped text. */
  lemma EventSegmentSpec(e: CaptionEvent)
    ensures e.segs.None? ==> EventSegment(e).None?
    ensures e.segs.Some? ==> (EventSegment(e).None? <==> Strip(PiecesText(e.segs.value)) == "")
    ensures EventSegment(e).Some? ==>
      && EventSegment(e).value.text == Strip(PiecesText(e.segs.value))
      && EventSegment(e).value.text != "" && Strip(EventSegment(e).value.text) == EventSegment(e).value.text
      && EventSegment(e).value.start == e.tStartMs.GetOr(0) as real / 1000.0
      && EventSegment(e).value.end == (e.tStartMs.GetOr(0) + e.dDurationMs.GetOr(0)) as real / 1000.0
  {
    if e.segs.Some? {
      StripIdempotent(PiecesText(e.segs.value));
    }
  }

  /** The segments the events yield, in event order. */
  function EventsToSegments(events: seq<CaptionEvent>): (segs: seq<Segment>)
    ensures |segs| <= |events|
    decreases |events|
  {
    if events == [] then []
    else
      var last := EventSegment(events[|events| - 1]);
      EventsToSegments(events[..|events| - 1]) + (if last.Some? then [last.value] else [])
  }

  /** Every converted segment carries a non-empty, already stripped text. */
  lemma {:induction false} EventsToSegmentsTexts(events: seq<CaptionEvent>)
    ensures forall i :: 0 <= i < |EventsToSegments(events)| ==>
      EventsToSegments(events)[i].text != "" && Strip(EventsToSegments(events)[i].text) == EventsToSegments(events)[i].text
    decreases |events|
  {
    if events != [] {
      var init := events[..|events| - 1];
      var r := EventsToSegments(events);
      var a := EventsToSegments(init);
      EventsToSegmentsTexts(init);
      EventSegmentSpec(events[|events| - 1]);
      forall i | 0 <= i < |r| ensures r[i].text != "" && Strip(r[i].text) == r[i].text {
        if i < |a| {
          assert r[i] == a[i];
        }
      }
    }
  }

  /** The inner loop collecting the `utf8` parts of one event. */
  method PiecesLoop(pieces: seq<CaptionPiece>) returns (text: string)
    ensures text == PiecesText(pieces)
  {
    text := "";
    var j := 0;
    while j < |pieces|
      invariant 0 <= j <= |pieces|
      invariant text == PiecesText(pieces[..j])
    {
      assert pieces[..j + 1][..j] == pieces[..j];
      if pieces[j].utf8.Some? {
        text := text + pieces[j].utf8.value;
      }
      j := j + 1;
    }
    assert pieces[..j] == pieces;
  }

  lemma TextsAppend(segs: seq<Segment>, x: Segment)
    ensures Texts(segs + [x]) == Texts(segs) + [x.text]
  {
  }

  /** The body of the conversion loop for one event. */
  method ConvertEvent(e: CaptionEvent) returns (seg: Option<Segment>)
    ensures seg == EventSegment(e)
  {
    if e.segs.None? {
      return None;
    }
    var startMs := e.tStartMs.GetOr(0);
    var durationMs := e.dDurationMs.GetOr(0);
    var textParts := PiecesLoop(e.segs.value);
    var text := Strip(textParts);
    if text != "" && text != "\n" {
      return Some(Segment(startMs as real / 1000.0, (startMs + durationMs) as real / 1000.0, text));
    }
    return None;
  }

  /** The conversion loop of `_get_youtube_captions`. */
  method CaptionSegments(events: seq<CaptionEvent>) returns (segments: seq<Segment>, fullTextParts: seq<string>)
    ensures segments == EventsToSegments(events)
    ensures fullTextParts == Texts(segments)
  {
    segments := [];
    fullTextParts := [];
    var i := 0;
    while i < |events|
      invariant 0 <= i <= |events|
      invariant segments == EventsToSegments(events[..i])
      invariant fullTextParts == Texts(segments)
    {
      assert events[..i + 1][..i] == events[..i];
      var seg := ConvertEvent(events[i]);
      if seg.Some? {
        TextsAppend(segments, seg.value);
        segments := segments + [seg.value];
        fullTextParts := fullTextParts + [seg.value.text];
      }
      i := i + 1;
    }
    assert events[..i] == events;
  }

  /** `_get_youtube_captions` after the file is read: None when no event yields a segment. */
  method CaptionTranscript(videoId: string, events: seq<CaptionEvent>) returns (t: Option<Transcript>)
    ensures t.None? <==> EventsToSegments(events) == []
    ensures t.Some? ==> t.value == Transcript(videoId, EventsToSegments(events), Join(" ", Texts(EventsToSegments(events))), "en")
  {
    var segments, parts := CaptionSegments(events);
    if segments == [] {
      return None;
    }
    return Some(Transcript(videoId, segments, Join(" ", parts), "en"));
  }

  // ---------------------------------------------------------------------------
  // Whisper result mapping

  /** `Transcript(...)` built from a Whisper result: every segment text is stripped,
      the language defaults to "en". */
  function WhisperTranscript(videoId: string, raw: seq<Segment>, text: string, language: Option<string>): (t: Transcript)
    ensures |t.segments| == |raw|
    ensures forall i :: 0 <= i < |raw| ==>
      t.segments[i].start == raw[i].start && t.segments[i].end == raw[i].end && t.segments[i].text == Strip(raw[i].text)
    ensures t.fullText == text && t.language == language.GetOr("en")
  {
    Transcript(videoId, seq(|raw|, i requires 0 <= i < |raw| => Segment(raw[i].start, raw[i].end, Strip(raw[i].text))),
               text, language.GetOr("en"))
  }

  /** A Whisper transcript keeps one segment per raw segment, with its times, and
      every stored text is already stripped: stripping it again changes nothing. */
  lemma WhisperTranscriptClean(videoId: string, raw: seq<Segment>, text: string, language: Option<string>)
    ensures var t := WhisperTranscript(videoId, raw, text, language);
      && |t.segments| == |raw|
      && (forall i :: 0 <= i < |raw| ==> t.segments[i].start == raw[i].start && t.segments[i].end == raw[i].end)
      && (forall s :: s in t.segments ==> Strip(s.text) == s.text)
  {
    var t := WhisperTranscript(videoId, raw, text, language);
    forall s | s in t.segments ensures Strip(s.text) == s.text {
      var i :| 0 <= i < |t.segments| && t.segments[i] == s;
      StripIdempotent(raw[i].text);
    }
  }

  // ---------------------------------------------------------------------------
  // _save_transcript / _load_transcript dictionary mapping

  function SegmentToJson(s: Segment): Json {
    JObj(map["start" := JNum(s.start), "end" := JNum(s.end), "text" := JStr(s.text)])
  }

  /** The "segments" list `_save_transcript` writes. */
  function SegmentsToJson(segs: seq<Segment>): (js: seq<Json>)
    ensures |js| == |segs|
    ensures forall i :: 0 <= i < |segs| ==> js[i] == SegmentToJson(segs[i])
  {
    seq(|segs|, i requires 0 <= i < |segs| => SegmentToJson(segs[i]))
  }

  /** The dictionary `_save_transcript` writes. */
  function SaveTranscript(t: Transcript): Json {
    JObj(map[
      "video_id" := JStr(t.videoId),
      "full_text" := JStr(t.fullText),
      "language" := JStr(t.language),
      "segments" := JArr(SegmentsToJson(t.segments))
    ])
  }

  /** One `TranscriptSegment(start=s["start"], end=s["end"], text=s["text"])`; None for a missing key. */
  function SegmentFromJson(m: map<string, Json>): Option<Segment> {
    if "start" in m && "end" in m && "text" in m && m["start"].JNum? && m["end"].JNum? && m["text"].JStr?
    then Some(Segment(m["start"].n, m["end"].n, m["text"].s))
    else None
  }

  function SegmentsFromJson(ms: seq<map<string, Json>>): (r: Option<seq<Segment>>)
    ensures r.Some? ==> |r.value| == |ms|
    decreases |ms|
  {
    if ms == [] then Some([])
    else match SegmentsFromJson(ms[..|ms| - 1])
      case None => None
      case Some(init) =>
        match SegmentFromJson(ms[|ms| - 1])
        case None => None
        case Some(s) => Some(init + [s])
  }

  /** `_load_transcript(video_id, path)` on the loaded dictionary: the id comes from the
      caller, a missing "language" reads as "en"; None where Python raises. */
  function LoadTranscript(videoId: string, data: Json): Option<Transcript> {
    if !data.JObj? || "segments" !in data.fields || "full_text" !in data.fields || !data.fields["full_text"].JStr? then None
    else
      var lang := Get(data.fields, "language", JStr("en"));
      if !lang.JStr? then None
      else match ObjectsIn(data.fields["segments"])
        case None => None
        case Some(ms) =>
          match SegmentsFromJson(ms)
          case None => None
          case Some(segs) => Some(Transcript(videoId, segs, data.fields["full_text"].s, lang.s))
  }

  /** The saved segment list iterates as dictionaries that load back to the segments. */
  lemma SegmentsRoundTrip(segs: seq<Segment>)
    ensures ObjectsIn(JArr(SegmentsToJson(segs))).Some?
    ensures SegmentsFromJson(ObjectsIn(JArr(SegmentsToJson(segs))).value) == Some(segs)
  {
    var js := SegmentsToJson(segs);
    assert forall i :: 0 <= i < |js| ==> js[i].JObj?;
    var o := ObjectsIn(JArr(js)).value;
    assert o == SegmentMaps(segs) by {
      assert |o| == |segs|;
      forall i | 0 <= i < |o| ensures o[i] == SegmentMaps(segs)[i] {
        assert o[i] == js[i].fields;
      }
    }
    SegmentMapsLoad(segs);
  }

  /** The dictionaries of the saved segments. */
  function SegmentMaps(segs: seq<Segment>): (ms: seq<map<string, Json>>)
    ensures |ms| == |segs|
    ensures forall i :: 0 <= i < |segs| ==> ms[i] == SegmentToJson(segs[i]).fields
  {
    seq(|segs|, i requires 0 <= i < |segs| => SegmentToJson(segs[i]).fields)
  }

  lemma {:induction false} SegmentMapsLoad(segs: seq<Segment>)
    ensures SegmentsFromJson(SegmentMaps(segs)) == Some(segs)
    decreases |segs|
  {
    if segs != [] {
      var init := segs[..|segs| - 1];
      var x := segs[|segs| - 1];
      SegmentMapsLoad(init);
      var ms := SegmentMaps(segs);
      assert ms[..|ms| - 1] == SegmentMaps(init);
      assert SegmentFromJson(ms[|ms| - 1]) == Some(x);
      assert init + [x] == segs;
    }
  }

  /** Saving then loading preserves every segment's start, end and text, the full text
      and the language. */
  lemma SaveLoadRoundTrip(t: Transcript)
    ensures LoadTranscript(t.videoId, SaveTranscript(t)) == Some(t)
  {
    var d := SaveTranscript(t).fields;
    assert d["segments"] == JArr(SegmentsToJson(t.segments)) && d["full_text"] == JStr(t.fullText);
    assert d["language"] == JStr(t.language);
    SegmentsRoundTrip(t.segments);
  }

  /** A saved dictionary without "language" loads as English. */
  lemma LoadDefaultsLanguage(t: Transcript)
    ensures LoadTranscript(t.videoId, JObj(SaveTranscript(t).fields - {"language"})) == Some(t.(language := "en"))
  {
    var d := SaveTranscript(t).fields - {"language"};
    assert "language" !in d;
    assert d["segments"] == JArr(SegmentsToJson(t.segments)) && d["full_text"] == JStr(t.fullText);
    SegmentsRoundTrip(t.segments);
  }
}
