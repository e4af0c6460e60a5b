/**
 * The three-pass clip finder (src/clip_finder_v5.py): candidate moments from one
 * model call, normalised to a 25-120 s window and grounded in the transcript; a score
 * per candidate (5.0 by default); a stable sort by score keeping the best five; and a
 * polished quotable line per kept clip.
 *
 * `json.loads` is the parameter `loads` (None where it raises); the model's reply to
 * a prompt is `chat(prompt)` (None where the call raises); the prompts are opaque
 * functions of what they quote. The replies awaited together by `asyncio.gather`
 * are read one after the other.
 */
module ClipFinderV5 {
  import opened Wrappers
  import opened Seqs
  import opened Text
  import opened Json
  import opened Transcriber
  import V4 = ClipFinderV4

  /** A clip candidate; `score` and `viralPotential` are set by the scoring pass. */
  datatype ClipCandidate = ClipCandidate(
    startTime: real, endTime: real, transcriptText: string, quotableLine: string,
    pattern: string, whyGood: string, speaker: Option<string>, score: real, viralPotential: string)

  // ---------------------------------------------------------------------------
  // Grounding and the transcript text

  /** `_get_real_transcript`: the stripped join of the strictly overlapping segments
      only, with no widened fallback; "" when no transcript is stored. */
  function RealTranscript(t: Option<Transcript>, start: real, end: real): string {
    if t.None? then "" else Strip(Join(" ", Texts(Filter(t.value.segments, V4.Overlapping(start, end)))))
  }

  /** Grounded text comes from segments that overlap the window, in transcript order. */
  lemma RealTranscriptSound(t: Option<Transcript>, start: real, end: real)
    requires RealTranscript(t, start, end) != ""
    ensures t.Some?
    ensures exists seg :: seg in t.value.segments && seg.start < end && seg.end > start
  {
    var overlapping := Filter(t.value.segments, V4.Overlapping(start, end));
    assert overlapping[0] in overlapping;
  }

  /** The first 40 %, the 30-70 % band and the last 30 % of the lines, with "..." between
      (`int(n * f)` taken as the exact floor). */
  function SampleLines(lines: seq<string>): seq<string> {
    var n := |lines|;
    V4.ScaledBelow(n, 40, 100);
    V4.ScaledBelow(n, 30, 70);
    V4.ScaledBelow(n, 70, 100);
    lines[..n * 40 / 100] + ["..."] + lines[n * 30 / 100..n * 70 / 100] + ["..."] + lines[n * 70 / 100..]
  }

  /** `_format_transcript`: segments from 30 s on; a text that is too long is sampled and
      cut at `maxChars`, so the result never exceeds it. */
  function FormatTranscript(t: Transcript, maxChars: nat, fmt0: real -> string): (r: string)
    ensures |r| <= maxChars
  {
    var lines := TimestampedLines(Filter(t.segments, StartsFrom(30.0)), fmt0);
    var text := Join("\n", lines);
    if |text| > maxChars then FirstN(Join("\n", SampleLines(lines)), maxChars) else text
  }

  /** Only segments from 30 s on matter, and a text that fits is returned whole. */
  lemma FormatTranscriptSpec(t1: Transcript, t2: Transcript, maxChars: nat, fmt0: real -> string)
    requires Filter(t1.segments, StartsFrom(30.0)) == Filter(t2.segments, StartsFrom(30.0))
    ensures FormatTranscript(t1, maxChars, fmt0) == FormatTranscript(t2, maxChars, fmt0)
    ensures var full := Join("\n", TimestampedLines(Filter(t1.segments, StartsFrom(30.0)), fmt0));
      |full| <= maxChars ==> FormatTranscript(t1, maxChars, fmt0) == full
  {
  }

  // ---------------------------------------------------------------------------
  // `_parse_json`

  /** The reply as JSON: the direct parse, else the brace-balanced slice from the first
      "{", else `{}`; it never raises. */
  function ParseJson(loads: string -> Option<Json>, content: string): (r: Json)
    ensures loads(Strip(content)).Some? ==> r == loads(Strip(content)).value
    ensures loads(Strip(content)).None? && '{' !in Strip(content) ==> r == JObj(map[])
  {
    var c := Strip(content);
    if loads(c).Some? then loads(c).value else SliceParse(loads, c)
  }

  /** The parse of the brace-balanced slice from the first "{", or `{}`. */
  function SliceParse(loads: string -> Option<Json>, c: string): (r: Json)
    ensures '{' !in c ==> r == JObj(map[])
  {
    match IndexOf(c, '{')
    case None => JObj(map[])
    case Some(start) =>
      match V4.CloseFrom(c, start, 0)
      case None => JObj(map[])
      case Some(end) => loads(c[start..end]).GetOr(JObj(map[]))
  }

  /** Besides a direct parse, the only value returned is the parse of a balanced slice
      that opens at the first "{" and ends at its matching "}"; everything else is `{}`. */
  lemma ParseJsonSpec(loads: string -> Option<Json>, content: string)
    ensures var c := Strip(content);
      || (loads(c).Some? && ParseJson(loads, content) == loads(c).value)
      || ParseJson(loads, content) == JObj(map[])
      || exists start: nat, end: nat ::
           && start < end <= |c| && IndexOf(c, '{') == Some(start)
           && c[end - 1] == '}' && V4.Depth(c[start..end]) == 0
           && loads(c[start..end]) == Some(ParseJson(loads, content))
  {
    var c := Strip(content);
    if loads(c).None? {
      match IndexOf(c, '{')
      case None =>
      case Some(start) =>
        V4.BraceScanSpec(c, start);
        match V4.CloseFrom(c, start, 0)
        case None =>
        case Some(end) =>
          if loads(c[start..end]).Some? {
            assert loads(c[start..end]) == Some(ParseJson(loads, content));
          }
    }
  }

  /** `_parse_json`, with the brace-counting loop. */
  method ParseJsonReply(loads: string -> Option<Json>, content0: string) returns (r: Json)
    ensures r == ParseJson(loads, content0)
  {
    var content := Strip(content0);
    var direct := loads(content);
    if direct.Some? {
      return direct.value;
    }
    r := SliceParseReply(loads, content);
  }

  /** The slice stage of `_parse_json`: the brace-counting loop and the second parse. */
  method SliceParseReply(loads: string -> Option<Json>, content: string) returns (r: Json)
    ensures r == SliceParse(loads, content)
  {
    var start := IndexOf(content, '{');
    if start.None? {
      return JObj(map[]);
    }
    var end := V4.BraceScan(content, start.value);
    r := JObj(map[]);
    if end.Some? {
      var sliced := loads(content[start.value..end.value]);
      if sliced.Some? {
        r := sliced.value;
      }
    }
  }

  // ---------------------------------------------------------------------------
  // Pass 1: candidates (`_find_candidates`)

  /** `float(str(v or 0).replace("s", ""))`: a falsy value reads as 0, a number as
      itself, a string through `float`; `True`, a list or an object do not convert. */
  function StartValue(v: Json, parseFloat: string -> Option<real>): (r: Option<real>)
    ensures !Truthy(v) ==> r == Some(0.0)
    ensures v.JNum? ==> r == Some(v.n)
  {
    if !Truthy(v) then Some(0.0)
    else match v
      case JNum(n) => Some(n)
      case JStr(s) => parseFloat(RemoveChar(s, 's'))
      case _ => None
  }

  /** The end time: a missing, null or zero end (False included) is `start + 45`;
      otherwise `float(str(end).replace("s", ""))`. */
  function EndValue(v: Json, start: real, parseFloat: string -> Option<real>): (r: Option<real>)
    ensures v.JNull? || v == JNum(0.0) || v == JBool(false) ==> r == Some(start + 45.0)
    ensures v.JNum? && v.n != 0.0 ==> r == Some(v.n)
  {
    if v.JNull? || v == JNum(0.0) || v == JBool(false) then Some(start + 45.0)
    else match v
      case JNum(n) => Some(n)
      case JStr(s) => parseFloat(RemoveChar(s, 's'))
      case _ => None
  }

  /** A duration below 25 s becomes 45 s, one above 120 s becomes 60 s. */
  function NormalisedEnd(start: real, end: real): (r: real)
    ensures 25.0 <= r - start <= 120.0
    ensures 25.0 <= end - start <= 120.0 ==> r == end
    ensures end - start < 25.0 ==> r == start + 45.0
    ensures end - start > 120.0 ==> r == start + 60.0
  {
    var duration := end - start;
    if duration < 25.0 then start + 45.0 else if duration > 120.0 then start + 60.0 else end
  }

  /** What every candidate of pass 1 satisfies, and scoring and polishing keep. */
  predicate GoodCandidate(t: Option<Transcript>, c: ClipCandidate) {
    && c.startTime >= 30.0
    && 25.0 <= c.endTime - c.startTime <= 120.0
    && c.transcriptText != ""
    && c.transcriptText == RealTranscript(t, c.startTime, c.endTime)
  }

  /** One element of "candidates": both times are converted before the intro guard, so
      a failed conversion raises even for an intro clip. */
  function CandidateFrom(t: Option<Transcript>, c: map<string, Json>, parseFloat: string -> Option<real>): (o: Outcome<ClipCandidate>)
    ensures o.Keep? ==> GoodCandidate(t, o.value) && o.value.score == 0.0 && o.value.viralPotential == ""
  {
    match StartValue(Get(c, "start_time", JNum(0.0)), parseFloat)
    case None => Crash
    case Some(start) =>
      match EndValue(Get(c, "end_time", JNull), start, parseFloat)
      case None => Crash
      case Some(end0) =>
        if start < 30.0 then Skip
        else
          var end := NormalisedEnd(start, end0);
          var realText := RealTranscript(t, start, end);
          if realText == "" then Skip
          else Keep(ClipCandidate(start, end, realText,
                                  TextOr(Get(c, "quotable_line", JStr("")), ""), TextOr(Get(c, "pattern", JStr("")), ""),
                                  TextOr(Get(c, "why_good", JStr("")), ""), OptText(Get(c, "speaker", JNull)), 0.0, ""))
  }

  /** The candidates of a list of elements, or None when one of them raises. */
  function CandidatesFrom(t: Option<Transcript>, items: seq<map<string, Json>>, parseFloat: string -> Option<real>): (r: Option<seq<ClipCandidate>>)
    ensures r.Some? ==> forall c :: c in r.value ==> GoodCandidate(t, c)
    decreases |items|
  {
    if items == [] then Some([])
    else match CandidatesFrom(t, items[..|items| - 1], parseFloat)
      case None => None
      case Some(acc) =>
        match CandidateFrom(t, items[|items| - 1], parseFloat)
        case Crash => None
        case Skip => Some(acc)
        case Keep(c) => Some(acc + [c])
  }

  lemma {:induction false} CandidateCrashPersists(t: Option<Transcript>, items: seq<map<string, Json>>, parseFloat: string -> Option<real>, n: nat)
    requires n <= |items| && CandidatesFrom(t, items[..n], parseFloat).None?
    ensures CandidatesFrom(t, items, parseFloat).None?
    decreases |items| - n
  {
    if n < |items| {
      assert items[..n + 1][..n] == items[..n];
      CandidateCrashPersists(t, items, parseFloat, n + 1);
    } else {
      assert items[..n] == items;
    }
  }

  /** Pass 1 as a whole: any exception (the call, a reply that is not an object, a
      failed conversion) gives no candidates. */
  function Candidates(t: Option<Transcript>, reply: Option<string>, loads: string -> Option<Json>,
                      parseFloat: string -> Option<real>): (r: seq<ClipCandidate>)
    ensures forall c :: c in r ==> GoodCandidate(t, c)
    ensures reply.None? ==> r == []
  {
    if reply.None? then []
    else match ListField(ParseJson(loads, reply.value), "candidates")
      case None => []
      case Some(items) => CandidatesFrom(t, items, parseFloat).GetOr([])
  }

  // ---------------------------------------------------------------------------
  // Pass 2: scores (`_score_candidates`, `_score_single`)

  /** The score and analysis from one scoring reply. A failed call reads as
      `{"score": 5.0}`; a missing "score" is 5.0 and a missing "analysis" "". None where
      the source raises: a parsed reply that is not an object, or a non-numeric score. */
  function ScoreOf(reply: Option<string>, loads: string -> Option<Json>): (r: Option<(real, string)>)
    ensures reply.None? ==> r == Some((5.0, ""))
    ensures reply.Some? && ParseJson(loads, reply.value).JObj? && "score" !in ParseJson(loads, reply.value).fields ==>
      r.Some? && r.value.0 == 5.0
  {
    if reply.None? then Some((5.0, ""))
    else
      var result := ParseJson(loads, reply.value);
      if !result.JObj? then None
      else match AsNumber(Get(result.fields, "score", JNum(5.0)))
        case None => None
        case Some(score) => Some((score, TextOr(Get(result.fields, "analysis", JStr("")), "")))
  }

  /** The scored candidates, replies taken in order, or None when one of them raises. */
  function Scored(cs: seq<ClipCandidate>, chat: string -> Option<string>, scorePrompt: ClipCandidate -> string,
                  loads: string -> Option<Json>): (r: Option<seq<ClipCandidate>>)
    decreases |cs|
  {
    if cs == [] then Some([])
    else
      var c := cs[|cs| - 1];
      match Scored(cs[..|cs| - 1], chat, scorePrompt, loads)
      case None => None
      case Some(acc) =>
        match ScoreOf(chat(scorePrompt(c)), loads)
        case None => None
        case Some(sa) => Some(acc + [c.(score := sa.0, viralPotential := sa.1)])
  }

  /** Scoring keeps every candidate, in order, and changes only its score and analysis;
      a candidate whose call failed scores 5.0. */
  lemma {:induction false} ScoredSpec(cs: seq<ClipCandidate>, chat: string -> Option<string>, scorePrompt: ClipCandidate -> string,
                                      loads: string -> Option<Json>)
    requires Scored(cs, chat, scorePrompt, loads).Some?
    ensures var r := Scored(cs, chat, scorePrompt, loads).value;
      && |r| == |cs|
      && forall i :: 0 <= i < |cs| ==>
           && r[i] == cs[i].(score := r[i].score, viralPotential := r[i].viralPotential)
           && (chat(scorePrompt(cs[i])).None? ==> r[i].score == 5.0)
    decreases |cs|
  {
    if cs != [] {
      var init := cs[..|cs| - 1];
      var c := cs[|cs| - 1];
      var acc := Scored(init, chat, scorePrompt, loads).value;
      var sa := ScoreOf(chat(scorePrompt(c)), loads).value;
      var r := Scored(cs, chat, scorePrompt, loads).value;
      assert r == acc + [c.(score := sa.0, viralPotential := sa.1)];
      ScoredSpec(init, chat, scorePrompt, loads);
      forall i | 0 <= i < |cs|
        ensures r[i] == cs[i].(score := r[i].score, viralPotential := r[i].viralPotential)
        ensures chat(scorePrompt(cs[i])).None? ==> r[i].score == 5.0
      {
        if i < |init| {
          assert r[i] == acc[i] && cs[i] == init[i];
        }
      }
    }
  }

  /** Higher score first. */
  predicate HigherScore(a: ClipCandidate, b: ClipCandidate) { a.score > b.score }

  /** The scoring loop: each candidate gets its score and analysis. */
  method ScoreCandidates(candidates: seq<ClipCandidate>, chat: string -> Option<string>, scorePrompt: ClipCandidate -> string,
                         loads: string -> Option<Json>) returns (scored: Option<seq<ClipCandidate>>)
    ensures scored == Scored(candidates, chat, scorePrompt, loads)
  {
    var acc: seq<ClipCandidate> := [];
    var i := 0;
    while i < |candidates|
      invariant 0 <= i <= |candidates|
      invariant Scored(candidates[..i], chat, scorePrompt, loads) == Some(acc)
    {
      var candidate := candidates[i];
      assert candidates[..i + 1][..i] == candidates[..i] && candidates[..i + 1][i] == candidate;
      var result := ScoreOf(chat(scorePrompt(candidate)), loads);
      if result.None? {
        ScoredCrashPersists(candidates, chat, scorePrompt, loads, i + 1);
        return None;
      }
      acc := acc + [candidate.(score := result.value.0, viralPotential := result.value.1)];
      i := i + 1;
    }
    assert candidates[..i] == candidates;
    scored := Some(acc);
  }

  lemma {:induction false} ScoredCrashPersists(cs: seq<ClipCandidate>, chat: string -> Option<string>, scorePrompt: ClipCandidate -> string,
                                               loads: string -> Option<Json>, n: nat)
    requires n <= |cs| && Scored(cs[..n], chat, scorePrompt, loads).None?
    ensures Scored(cs, chat, scorePrompt, loads).None?
    decreases |cs| - n
  {
    if n < |cs| {
      assert cs[..n + 1][..n] == cs[..n];
      ScoredCrashPersists(cs, chat, scorePrompt, loads, n + 1);
    } else {
      assert cs[..n] == cs;
    }
  }

  // ---------------------------------------------------------------------------
  // Pass 3: polish (`_polish_quotes`, `_polish_single`)

  /** `result.strip().strip('"').strip("'")`. */
  function CleanQuote(s: string): (r: string)
    ensures |r| <= |s|
    ensures r != [] ==> r[0] != '\'' && r[|r| - 1] != '\''
  {
    StripBy(StripBy(Strip(s), c => c == '"'), c => c == '\'')
  }

  /** `_polish_single`: the cleaned reply when it is shorter than 100, else the original. */
  function PolishSingle(reply: Option<string>, original: string): string {
    if reply.Some? && |CleanQuote(reply.value)| < 100 then CleanQuote(reply.value) else original
  }

  /** `_polish_quotes` for one clip: only a non-empty result replaces the line. */
  function Polish(c: ClipCandidate, reply: Option<string>): (r: ClipCandidate)
  {
    var result := PolishSingle(reply, c.quotableLine);
    if result != "" then c.(quotableLine := result) else c
  }

  /** Polishing changes only the quotable line, keeps it when the call fails, and
      otherwise replaces it only by a non-empty cleaned reply shorter than 100. */
  lemma PolishSpec(c: ClipCandidate, reply: Option<string>)
    ensures var r := Polish(c, reply);
      && r == c.(quotableLine := r.quotableLine)
      && (reply.None? ==> r == c)
      && (r.quotableLine != c.quotableLine ==>
            reply.Some? && r.quotableLine == CleanQuote(reply.value) && r.quotableLine != "" && |r.quotableLine| < 100)
      && (reply.Some? && CleanQuote(reply.value) != "" && |CleanQuote(reply.value)| < 100 ==>
            r.quotableLine == CleanQuote(reply.value))
  {
  }

  function Polished(cs: seq<ClipCandidate>, chat: string -> Option<string>, polishPrompt: ClipCandidate -> string): (r: seq<ClipCandidate>)
    ensures |r| == |cs|
    ensures forall i :: 0 <= i < |cs| ==> r[i] == Polish(cs[i], chat(polishPrompt(cs[i])))
  {
    seq(|cs|, i requires 0 <= i < |cs| => Polish(cs[i], chat(polishPrompt(cs[i]))))
  }

  /** The polishing loop. */
  method PolishQuotes(clips: seq<ClipCandidate>, chat: string -> Option<string>, polishPrompt: ClipCandidate -> string)
    returns (polished: seq<ClipCandidate>)
    ensures polished == Polished(clips, chat, polishPrompt)
  {
    polished := [];
    var i := 0;
    while i < |clips|
      invariant 0 <= i <= |clips|
      invariant |polished| == i
      invariant forall k :: 0 <= k < i ==> polished[k] == Polish(clips[k], chat(polishPrompt(clips[k])))
    {
      var result := PolishSingle(chat(polishPrompt(clips[i])), clips[i].quotableLine);
      var clip := clips[i];
      if result != "" {
        clip := clip.(quotableLine := result);
      }
      assert clip == Polish(clips[i], chat(polishPrompt(clips[i])));
      polished := polished + [clip];
      i := i + 1;
    }
  }

  // ---------------------------------------------------------------------------
  // The three passes (`find_clips`)

  /** The result of `find_clips`, or None when it raises. */
  function FindClipsResult(t: Option<Transcript>, maxClips: nat, candidates: seq<ClipCandidate>,
                           chat: string -> Option<string>, scorePrompt: ClipCandidate -> string,
                           polishPrompt: ClipCandidate -> string, loads: string -> Option<Json>): Option<seq<ClipCandidate>>
  {
    if candidates == [] then Some([])
    else
      var scored :- Scored(candidates, chat, scorePrompt, loads);
      Some(Polished(FirstN(SortBy(scored, HigherScore), maxClips), chat, polishPrompt))
  }

  lemma HigherScoreStrict()
    ensures StrictOrder(HigherScore)
  {
  }

  /** Scoring changes neither the window nor the text, so pass-1 guarantees survive it. */
  lemma ScoredGood(t: Option<Transcript>, cs: seq<ClipCandidate>, chat: string -> Option<string>,
                   scorePrompt: ClipCandidate -> string, loads: string -> Option<Json>)
    requires forall c :: c in cs ==> GoodCandidate(t, c)
    requires Scored(cs, chat, scorePrompt, loads).Some?
    ensures forall c :: c in Scored(cs, chat, scorePrompt, loads).value ==> GoodCandidate(t, c)
  {
    ScoredSpec(cs, chat, scorePrompt, loads);
    var r := Scored(cs, chat, scorePrompt, loads).value;
    forall i | 0 <= i < |r| ensures GoodCandidate(t, r[i]) {
      assert cs[i] in cs;
    }
  }

  /** The best `maxClips` by score, highest first, drawn from the scored list. */
  lemma TopGood(t: Option<Transcript>, scored: seq<ClipCandidate>, maxClips: nat)
    requires forall c :: c in scored ==> GoodCandidate(t, c)
    ensures var top := FirstN(SortBy(scored, HigherScore), maxClips);
      && |top| <= maxClips
      && Ordered(top, HigherScore)
      && forall c :: c in top ==> GoodCandidate(t, c)
  {
    var sorted := SortBy(scored, HigherScore);
    HigherScoreStrict();
    SortByOrdered(scored, HigherScore);
    var top := FirstN(sorted, maxClips);
    FirstNMembers(sorted, maxClips);
    forall c | c in top ensures GoodCandidate(t, c) {
      assert c in multiset(scored);
    }
  }

  /** Polishing touches only the quotable line, so order and guarantees are kept. */
  lemma PolishedKeeps(t: Option<Transcript>, cs: seq<ClipCandidate>, chat: string -> Option<string>,
                      polishPrompt: ClipCandidate -> string)
    requires Ordered(cs, HigherScore) && forall c :: c in cs ==> GoodCandidate(t, c)
    ensures var r := Polished(cs, chat, polishPrompt);
      Ordered(r, HigherScore) && forall c :: c in r ==> GoodCandidate(t, c)
  {
    var r := Polished(cs, chat, polishPrompt);
    forall i | 0 <= i < |r| ensures GoodCandidate(t, r[i]) && r[i].score == cs[i].score {
      PolishSpec(cs[i], chat(polishPrompt(cs[i])));
      assert cs[i] in cs;
    }
  }

  /** No candidates give no clips; otherwise at most `maxClips`, highest score first,
      each one a scored and polished candidate of pass 1. */
  lemma FindClipsSpec(t: Option<Transcript>, maxClips: nat, candidates: seq<ClipCandidate>,
                      chat: string -> Option<string>, scorePrompt: ClipCandidate -> string,
                      polishPrompt: ClipCandidate -> string, loads: string -> Option<Json>)
    requires forall c :: c in candidates ==> GoodCandidate(t, c)
    ensures var r := FindClipsResult(t, maxClips, candidates, chat, scorePrompt, polishPrompt, loads);
      && (candidates == [] ==> r == Some([]))
      && (r.Some? ==>
            && |r.value| <= maxClips
            && Ordered(r.value, HigherScore)
            && forall c :: c in r.value ==> GoodCandidate(t, c))
  {
    if candidates != [] {
      var scored := Scored(candidates, chat, scorePrompt, loads);
      if scored.Some? {
        ScoredGood(t, candidates, chat, scorePrompt, loads);
        TopGood(t, scored.value, maxClips);
        PolishedKeeps(t, FirstN(SortBy(scored.value, HigherScore), maxClips), chat, polishPrompt);
      }
    }
  }

  // ---------------------------------------------------------------------------
  // The finder object

  class ClipFinderV5 {
    const maxClips: nat
    /** `self._current_transcript`; None until `find_clips` stores one. */
    var currentTranscript: Option<Transcript>

    constructor ()
      ensures maxClips == 5 && currentTranscript.None?
    {
      maxClips := 5;
      currentTranscript := None;
    }

    /** The candidate loop of `_find_candidates`. */
    method CollectCandidates(items: seq<map<string, Json>>, parseFloat: string -> Option<real>)
      returns (candidates: Option<seq<ClipCandidate>>)
      ensures candidates == CandidatesFrom(currentTranscript, items, parseFloat)
    {
      var kept: seq<ClipCandidate> := [];
      var i := 0;
      while i < |items|
        invariant 0 <= i <= |items|
        invariant CandidatesFrom(currentTranscript, items[..i], parseFloat) == Some(kept)
      {
        assert items[..i + 1][..i] == items[..i];
        var c := items[i];
        var start := StartValue(Get(c, "start_time", JNum(0.0)), parseFloat);
        if start.None? {
          CandidateCrashPersists(currentTranscript, items, parseFloat, i + 1);
          return None;
        }
        var end := EndValue(Get(c, "end_time", JNull), start.value, parseFloat);
        if end.None? {
          CandidateCrashPersists(currentTranscript, items, parseFloat, i + 1);
          return None;
        }
        if start.value < 30.0 {
          i := i + 1;
          continue;
        }
        var endTime := NormalisedEnd(start.value, end.value);
        var realText := RealTranscript(currentTranscript, start.value, endTime);
        if realText == "" {
          i := i + 1;
          continue;
        }
        kept := kept + [ClipCandidate(start.value, endTime, realText,
                                      TextOr(Get(c, "quotable_line", JStr("")), ""), TextOr(Get(c, "pattern", JStr("")), ""),
                                      TextOr(Get(c, "why_good", JStr("")), ""), OptText(Get(c, "speaker", JNull)), 0.0, "")];
        i := i + 1;
      }
      assert items[..i] == items;
      candidates := Some(kept);
    }

    /** `_find_candidates`. */
    method FindCandidates(reply: Option<string>, loads: string -> Option<Json>, parseFloat: string -> Option<real>)
      returns (candidates: seq<ClipCandidate>)
      ensures candidates == Candidates(currentTranscript, reply, loads, parseFloat)
    {
      if reply.None? {
        return [];
      }
      var result := ParseJsonReply(loads, reply.value);
      var items := ListField(result, "candidates");
      if items.None? {
        return [];
      }
      var found := CollectCandidates(items.value, parseFloat);
      candidates := found.GetOr([]);
    }

    /** `find_clips`: candidates, scores, the best `maxClips` by score, polished lines;
        None where the scoring pass raises. */
    method FindClips(transcript: Transcript, chat: string -> Option<string>, findPrompt: string -> string,
                     scorePrompt: ClipCandidate -> string, polishPrompt: ClipCandidate -> string,
                     loads: string -> Option<Json>, parseFloat: string -> Option<real>, fmt0: real -> string)
      returns (clips: Option<seq<ClipCandidate>>)
      modifies this
      ensures currentTranscript == Some(transcript)
      ensures clips == FindClipsResult(Some(transcript), maxClips,
                                       Candidates(Some(transcript), chat(findPrompt(FormatTranscript(transcript, 40000, fmt0))), loads, parseFloat),
                                       chat, scorePrompt, polishPrompt, loads)
    {
      currentTranscript := Some(transcript);
      var timestampedText := FormatTranscript(transcript, 40000, fmt0);
      var candidates := FindCandidates(chat(findPrompt(timestampedText)), loads, parseFloat);
      if candidates == [] {
        return Some([]);
      }
      var scored := ScoreCandidates(candidates, chat, scorePrompt, loads);
      if scored.None? {
        return None;
      }
      var sorted := SortBy(scored.value, HigherScore);
      var polished := PolishQuotes(FirstN(sorted, maxClips), chat, polishPrompt);
      clips := Some(polished);
    }
  }
}
