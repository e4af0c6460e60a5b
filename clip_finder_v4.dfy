/**
 * The single-call clip finder (src/clip_finder_v4.py): repair of the model's JSON
 * reply (direct parse, brace-balanced slice, comma and newline rewrite, regex
 * extraction), grounding of a clip in the transcript segments, the timestamped
 * transcript text, and the two-attempt search with its clip guards.
 *
 * `json.loads` is the parameter `loads` (None where it raises); the model's reply to
 * a prompt is `chat(prompt)` (None where the call raises); the prompt templates are
 * opaque functions of the formatted transcript.
 */
module ClipFinderV4 {
  import opened Wrappers
  import opened Seqs
  import opened Text
  import opened Json
  import opened Transcriber

  // ---------------------------------------------------------------------------
  // Brace scan

  /** The number of occurrences of `c` in `s`. */
  function CountChar(s: string, c: char): nat
    decreases |s|
  {
    if s == [] then 0 else CountChar(s[..|s| - 1], c) + (if s[|s| - 1] == c then 1 else 0)
  }

  lemma {:induction false} CountCharAppend(a: string, b: string, c: char)
    ensures CountChar(a + b, c) == CountChar(a, c) + CountChar(b, c)
    decreases |b|
  {
    if b == [] {
      assert a + b == a;
    } else {
      assert (a + b)[..|a + b| - 1] == a + b[..|b| - 1];
      CountCharAppend(a, b[..|b| - 1], c);
    }
  }

  /** The brace depth the scan reaches after `s`: every "{" and "}" counts, inside
      string literals too. */
  function Depth(s: string): int {
    CountChar(s, '{') - CountChar(s, '}')
  }

  /** The scan from index `i` with depth `depth`: the index after the first "}" that
      brings the depth to 0. */
  function CloseFrom(s: string, i: nat, depth: int): (r: Option<nat>)
    ensures r.Some? ==> i < r.value <= |s| && s[r.value - 1] == '}'
    decreases |s| - i
  {
    if i >= |s| then None
    else
      var d := if s[i] == '{' then depth + 1 else if s[i] == '}' then depth - 1 else depth;
      if s[i] == '}' && d == 0 then Some(i + 1) else CloseFrom(s, i + 1, d)
  }

  lemma {:induction false} CloseFromFirstZero(s: string, from: nat, i: nat)
    requires from < i <= |s|
    requires forall j :: from < j <= i ==> Depth(s[from..j]) > 0
    ensures var r := CloseFrom(s, i, Depth(s[from..i]));
      && (r.Some? ==> Depth(s[from..r.value]) == 0 && forall j :: from < j < r.value ==> Depth(s[from..j]) > 0)
      && (r.None? ==> forall j :: from < j <= |s| ==> Depth(s[from..j]) > 0)
    decreases |s| - i
  {
    if i < |s| {
      assert s[from..i + 1][..i - from] == s[from..i];
      var d := Depth(s[from..i + 1]);
      if !(s[i] == '}' && d == 0) {
        CloseFromFirstZero(s, from, i + 1);
      }
    }
  }

  /** From a "{" the scan stops right after the first position where the depth is
      back to 0; it finds nothing iff the depth stays positive to the end. */
  lemma BraceScanSpec(s: string, from: nat)
    requires from < |s| && s[from] == '{'
    ensures var r := CloseFrom(s, from, 0);
      && (r.Some? ==> from + 1 < r.value <= |s| && s[r.value - 1] == '}' && Depth(s[from..r.value]) == 0
                      && forall j :: from < j < r.value ==> Depth(s[from..j]) > 0)
      && (r.None? ==> forall j :: from < j <= |s| ==> Depth(s[from..j]) > 0)
  {
    var first := s[from..from + 1];
    assert first == ['{'] && first[..|first| - 1] == [];
    assert CountChar(first, '{') == 1 && CountChar(first, '}') == 0;
    CloseFromFirstZero(s, from, from + 1);
  }

  /** The brace-counting loop of `_parse_json_response`. */
  method BraceScan(content: string, startIdx: nat) returns (endIdx: Option<nat>)
    requires startIdx <= |content|
    ensures endIdx == CloseFrom(content, startIdx, 0)
  {
    var braceCount := 0;
    endIdx := None;
    var i := startIdx;
    while i < |content|
      invariant startIdx <= i <= |content|
      invariant CloseFrom(content, startIdx, 0) == CloseFrom(content, i, braceCount)
    {
      var c := content[i];
      if c == '{' {
        braceCount := braceCount + 1;
      } else if c == '}' {
        braceCount := braceCount - 1;
        if braceCount == 0 {
          endIdx := Some(i + 1);
          break;
        }
      }
      i := i + 1;
    }
  }

  /** The text the second parse attempt reads: from the first "{" to its matching "}",
      or the whole rest with "}]}" appended when the depth never returns to 0. */
  function BraceSlice(s: string, from: nat): string
    requires from <= |s|
  {
    match CloseFrom(s, from, 0)
    case None => s[from..] + "}]}"
    case Some(e) => s[from..e]
  }

  // ---------------------------------------------------------------------------
  // Textual repairs

  /** The end of the whitespace run starting at `i`. */
  function SkipSpaces(s: string, i: nat): (j: nat)
    requires i <= |s|
    ensures i <= j <= |s| && (j < |s| ==> !IsSpace(s[j]))
    ensures forall k :: i <= k < j ==> IsSpace(s[k])
    decreases |s| - i
  {
    if i < |s| && IsSpace(s[i]) then SkipSpaces(s, i + 1) else i
  }

  predicate IsCloser(c: char) { c == '}' || c == ']' }

  /** `re.sub(r',\s*([}\]])', r'\1', s)`: one left-to-right pass that replaces each
      comma, the whitespace after it and the closer that follows by the closer. */
  function RemoveTrailingCommas(s: string): (r: string)
    ensures |r| <= |s|
    decreases |s|
  {
    if s == [] then []
    else
      var j := SkipSpaces(s, 1);
      if s[0] == ',' && j < |s| && IsCloser(s[j]) then [s[j]] + RemoveTrailingCommas(s[j + 1..])
      else [s[0]] + RemoveTrailingCommas(s[1..])
  }

  /** Only commas and whitespace are removed: every other character keeps its count. */
  lemma {:induction false} RemoveTrailingCommasKeeps(s: string, c: char)
    requires c != ',' && !IsSpace(c)
    ensures CountChar(RemoveTrailingCommas(s), c) == CountChar(s, c)
    decreases |s|
  {
    if s != [] {
      var j := SkipSpaces(s, 1);
      if s[0] == ',' && j < |s| && IsCloser(s[j]) {
        RemoveTrailingCommasKeeps(s[j + 1..], c);
        CountCharAppend([s[j]], RemoveTrailingCommas(s[j + 1..]), c);
        CommaRunCount(s, j, c);
      } else {
        RemoveTrailingCommasKeeps(s[1..], c);
        CountCharAppend([s[0]], RemoveTrailingCommas(s[1..]), c);
        assert s == [s[0]] + s[1..];
        CountCharAppend([s[0]], s[1..], c);
      }
    }
  }

  /** The comma and the whitespace before index `j` hold no `c`. */
  lemma CommaRunCount(s: string, j: nat, c: char)
    requires 0 < j < |s| && s[0] == ',' && c != ',' && !IsSpace(c)
    requires forall k :: 1 <= k < j ==> IsSpace(s[k])
    ensures CountChar(s, c) == CountChar([s[j]], c) + CountChar(s[j + 1..], c)
  {
    assert s == [s[0]] + s[1..j] + [s[j]] + s[j + 1..];
    CountCharAppend([s[0]] + s[1..j] + [s[j]], s[j + 1..], c);
    CountCharAppend([s[0]] + s[1..j], [s[j]], c);
    CountCharAppend([s[0]], s[1..j], c);
    SpacesCountZero(s[1..j], c);
    assert CountChar([s[0]], c) == 0 by {
      assert [s[0]][..0] == [];
    }
  }

  lemma {:induction false} SpacesCountZero(w: string, c: char)
    requires !IsSpace(c) && forall k :: 0 <= k < |w| ==> IsSpace(w[k])
    ensures CountChar(w, c) == 0
    decreases |w|
  {
    if w != [] {
      SpacesCountZero(w[..|w| - 1], c);
    }
  }

  /** Text without commas is left as it is. */
  lemma {:induction false} RemoveTrailingCommasNoComma(s: string)
    requires ',' !in s
    ensures RemoveTrailingCommas(s) == s
    decreases |s|
  {
    if s != [] {
      assert s[0] in s;
      assert forall k :: 1 <= k < |s| ==> s[1..][k - 1] == s[k];
      RemoveTrailingCommasNoComma(s[1..]);
    }
  }

  /** A comma followed by whitespace and a closer disappears with the whitespace. */
  lemma RemoveTrailingCommasRule(ws: string, closer: char, rest: string)
    requires forall k :: 0 <= k < |ws| ==> IsSpace(ws[k])
    requires IsCloser(closer)
    ensures RemoveTrailingCommas([','] + ws + [closer] + rest) == [closer] + RemoveTrailingCommas(rest)
  {
    var s := [','] + ws + [closer] + rest;
    SkipSpacesOver(s, 1, |ws| + 1);
    assert s[|ws| + 1] == closer;
    assert s[|ws| + 2..] == rest;
  }

  lemma {:induction false} SkipSpacesOver(s: string, i: nat, j: nat)
    requires i <= j < |s| && !IsSpace(s[j]) && forall k :: i <= k < j ==> IsSpace(s[k])
    ensures SkipSpaces(s, i) == j
    decreases j - i
  {
    if i < j {
      SkipSpacesOver(s, i + 1, j);
    }
  }

  /** Whether the newline at `i` is replaced: it is not preceded by a backslash. */
  predicate UnescapedNewline(s: string, i: nat)
    requires i < |s|
  {
    s[i] == '\n' && (i == 0 || s[i - 1] != '\\')
  }

  /** `re.sub(r'(?<!\\)\n', ' ', s)`. */
  function ReplaceNewlines(s: string): (r: string)
    ensures |r| == |s|
  {
    seq(|s|, i requires 0 <= i < |s| => if UnescapedNewline(s, i) then ' ' else s[i])
  }

  /** Every newline left is preceded by a backslash, and nothing but newlines changes. */
  lemma ReplaceNewlinesSpec(s: string)
    ensures forall i :: 0 <= i < |s| && ReplaceNewlines(s)[i] == '\n' ==> i > 0 && s[i - 1] == '\\'
    ensures forall i :: 0 <= i < |s| && s[i] != '\n' ==> ReplaceNewlines(s)[i] == s[i]
    ensures forall c :: c != '\n' && c != ' ' ==> CountChar(ReplaceNewlines(s), c) == CountChar(s, c)
  {
    forall c | c != '\n' && c != ' ' ensures CountChar(ReplaceNewlines(s), c) == CountChar(s, c) {
      CountSame(ReplaceNewlines(s), s, c);
    }
  }

  lemma {:induction false} CountSame(a: string, b: string, c: char)
    requires |a| == |b| && forall i :: 0 <= i < |a| ==> (a[i] == c <==> b[i] == c)
    ensures CountChar(a, c) == CountChar(b, c)
    decreases |a|
  {
    if a != [] {
      CountSame(a[..|a| - 1], b[..|b| - 1], c);
    }
  }

  /** Both rewrites, in the order the parser applies them. */
  function Repair(s: string): string {
    ReplaceNewlines(RemoveTrailingCommas(s))
  }

  /** The repair never changes the brace depth. */
  lemma RepairKeepsDepth(s: string)
    ensures Depth(Repair(s)) == Depth(s)
  {
    RemoveTrailingCommasKeeps(s, '{');
    RemoveTrailingCommasKeeps(s, '}');
    ReplaceNewlinesSpec(RemoveTrailingCommas(s));
  }

  // ---------------------------------------------------------------------------
  // Regex extraction of clips

  function Pow10(n: nat): (p: nat)
    ensures p > 0
  {
    if n == 0 then 1 else 10 * Pow10(n - 1)
  }

  /** The value of the decimal `whole.frac` (exact, not rounded to a double). */
  function DecimalValue(whole: string, frac: string): real
    requires AllDigits(whole) && AllDigits(frac)
  {
    DigitsValue(whole) as real + DigitsValue(frac) as real / Pow10(|frac|) as real
  }

  /** `\d+(?:\.\d+)?` at `i`: the number read and the end of the match. */
  function NumberAt(s: string, i: nat): (r: Option<(real, nat)>)
    requires i <= |s|
    ensures r.Some? ==> i < r.value.1 <= |s|
  {
    var j := DigitRun(s, i);
    if j == i then None
    else if j + 1 < |s| && s[j] == '.' && IsDigit(s[j + 1]) then
      var k := DigitRun(s, j + 1);
      Some((DecimalValue(s[i..j], s[j + 1..k]), k))
    else Some((DigitsValue(s[i..j]) as real, j))
  }

  /** A literal at `i`: the end of the match. */
  function LiteralAt(s: string, i: nat, lit: string): (r: Option<nat>)
    requires i <= |s|
    ensures r.Some? ==> r.value == i + |lit| <= |s| && s[i..r.value] == lit
  {
    if i + |lit| <= |s| && s[i..i + |lit|] == lit then Some(i + |lit|) else None
  }

  /** `"([^"]*)"` at `i`: the text between the quotes and the end of the match. */
  function QuotedAt(s: string, i: nat): (r: Option<(string, nat)>)
    requires i <= |s|
    ensures r.Some? ==> i < r.value.1 <= |s| && '"' !in r.value.0
  {
    if i < |s| && s[i] == '"' then
      match IndexOf(s[i + 1..], '"')
      case None => None
      case Some(k) => Some((s[i + 1..i + 1 + k], i + k + 2))
    else None
  }

  /** The clip pattern
        `\{\s*"start_time"\s*:\s*(NUM)\s*,\s*"end_time"\s*:\s*(NUM)\s*,\s*"transcript"\s*:\s*"([^"]*)"`
      at `i`: its three groups and the end of the match. The pattern needs no
      backtracking, since every repeated class is followed by a character outside it. */
  function ClipAt(s: string, i: nat): (r: Option<(real, real, string, nat)>)
    requires i <= |s|
    ensures r.Some? ==> i < r.value.3 <= |s|
  {
    var p0 :- LiteralAt(s, i, "{");
    var p1 :- LiteralAt(s, SkipSpaces(s, p0), "\"start_time\"");
    var p2 :- LiteralAt(s, SkipSpaces(s, p1), ":");
    var n1 :- NumberAt(s, SkipSpaces(s, p2));
    var p3 :- LiteralAt(s, SkipSpaces(s, n1.1), ",");
    var p4 :- LiteralAt(s, SkipSpaces(s, p3), "\"end_time\"");
    var p5 :- LiteralAt(s, SkipSpaces(s, p4), ":");
    var n2 :- NumberAt(s, SkipSpaces(s, p5));
    var p6 :- LiteralAt(s, SkipSpaces(s, n2.1), ",");
    var p7 :- LiteralAt(s, SkipSpaces(s, p6), "\"transcript\"");
    var p8 :- LiteralAt(s, SkipSpaces(s, p7), ":");
    var q :- QuotedAt(s, SkipSpaces(s, p8));
    Some((n1.0, n2.0, q.0, q.1))
  }

  /** `re.findall(clip_pattern, s[i:])`: non-overlapping matches, left to right. */
  function FindClipMatches(s: string, i: nat): (ms: seq<(real, real, string)>)
    requires i <= |s|
    decreases |s| - i
  {
    if i == |s| then []
    else match ClipAt(s, i)
      case Some(m) => [(m.0, m.1, m.2)] + FindClipMatches(s, m.3)
      case None => FindClipMatches(s, i + 1)
  }

  const ExtractedPattern := "EXTRACTED"
  const ExtractedWhy := "Extracted from malformed response"

  /** The clip object the fallback builds from one match. */
  function ExtractedClip(m: (real, real, string)): map<string, Json> {
    map["start_time" := JNum(m.0), "end_time" := JNum(m.1), "transcript" := JStr(m.2),
        "quotable_line" := JStr(Take(m.2, 100)), "pattern" := JStr(ExtractedPattern),
        "why_good" := JStr(ExtractedWhy), "speaker" := JNull]
  }

  function ExtractedClips(ms: seq<(real, real, string)>): (js: seq<Json>)
    ensures |js| == |ms| && forall k :: 0 <= k < |ms| ==> js[k] == JObj(ExtractedClip(ms[k]))
  {
    seq(|ms|, k requires 0 <= k < |ms| => JObj(ExtractedClip(ms[k])))
  }

  /** The last resort: `{"clips": [...]}` from the regex matches, or None without any. */
  function RegexFallback(s: string): (r: Option<Json>)
    ensures r.None? <==> FindClipMatches(s, 0) == []
  {
    var ms := FindClipMatches(s, 0);
    if ms == [] then None else Some(JObj(map["clips" := JArr(ExtractedClips(ms))]))
  }

  /** Every extracted clip is marked "EXTRACTED" with the fixed reason and no speaker,
      and its quotable line is the first 100 characters of its transcript. */
  lemma RegexFallbackClips(s: string, k: nat)
    requires RegexFallback(s).Some?
    requires k < |FindClipMatches(s, 0)|
    ensures var r := RegexFallback(s).value;
      && r.JObj? && "clips" in r.fields && r.fields["clips"].JArr?
      && |r.fields["clips"].items| == |FindClipMatches(s, 0)|
      && var c := r.fields["clips"].items[k];
      var m := FindClipMatches(s, 0)[k];
      && c.JObj?
      && c.fields["pattern"] == JStr("EXTRACTED")
      && c.fields["why_good"] == JStr("Extracted from malformed response")
      && c.fields["speaker"] == JNull
      && c.fields["transcript"] == JStr(m.2)
      && c.fields["quotable_line"] == JStr(if |m.2| > 100 then m.2[..100] else m.2)
      && c.fields["start_time"] == JNum(m.0) && c.fields["end_time"] == JNum(m.1)
   {
    var ms := FindClipMatches(s, 0);
    var js := ExtractedClips(ms);
    assert RegexFallback(s).value == JObj(map["clips" := JArr(js)]);
    assert js[k] == JObj(ExtractedClip(ms[k]));
    ExtractedClipFields(ms[k]);
  }

  lemma ExtractedClipFields(m: (real, real, string))
    ensures var c := ExtractedClip(m);
      && c["pattern"] == JStr("EXTRACTED")
      && c["why_good"] == JStr("Extracted from malformed response")
      && c["speaker"] == JNull
      && c["transcript"] == JStr(m.2)
      && c["quotable_line"] == JStr(if |m.2| > 100 then m.2[..100] else m.2)
      && c["start_time"] == JNum(m.0) && c["end_time"] == JNum(m.1)
  {
  }

  // ---------------------------------------------------------------------------
  // The layered parse

  /** What `_parse_json_response` returns for a reply. */
  function ParseResponse(loads: string -> Option<Json>, content: string): (r: Option<Json>)
    ensures loads(Strip(content)).Some? ==> r == loads(Strip(content))
    ensures loads(Strip(content)).None? && '{' !in Strip(content) ==> r.None?
  {
    var c := Strip(content);
    if loads(c).Some? then loads(c)
    else match IndexOf(c, '{')
      case None => None
      case Some(startIdx) =>
        var sliced := BraceSlice(c, startIdx);
        if loads(sliced).Some? then loads(sliced)
        else if loads(Repair(sliced)).Some? then loads(Repair(sliced))
        else RegexFallback(sliced)
  }

  /** The slice starts at the "{"; it ends at a "}" that balances it when the scan
      finds one, and with "}]}" appended otherwise. */
  lemma BraceSliceSpec(s: string, from: nat)
    requires from < |s| && s[from] == '{'
    ensures var sliced := BraceSlice(s, from);
      && sliced != [] && sliced[0] == '{'
      && (CloseFrom(s, from, 0).Some? ==> sliced[|sliced| - 1] == '}' && Depth(sliced) == 0)
      && (CloseFrom(s, from, 0).None? ==> sliced == s[from..] + "}]}" && Depth(s[from..]) > 0)
  {
    BraceScanSpec(s, from);
    assert s[from..|s|] == s[from..];
  }

  /** `_parse_json_response`, rewriting `content` and `fixed` step by step. */
  method ParseJsonResponse(loads: string -> Option<Json>, content0: string) returns (r: Option<Json>)
    ensures r == ParseResponse(loads, content0)
  {
    var content := Strip(content0);
    r := loads(content);
    if r.Some? {
      return;
    }
    var startIdx := IndexOf(content, '{');
    if startIdx.None? {
      return None;
    }
    var endIdx := BraceScan(content, startIdx.value);
    if endIdx.None? {
      content := content[startIdx.value..] + "}]}";
    } else {
      content := content[startIdx.value..endIdx.value];
    }
    r := loads(content);
    if r.Some? {
      return;
    }
    var fixed := content;
    fixed := RemoveTrailingCommas(fixed);
    fixed := ReplaceNewlines(fixed);
    r := loads(fixed);
    if r.Some? {
      return;
    }
    r := RegexFallback(content);
  }

  // ---------------------------------------------------------------------------
  // Grounding in the transcript (`_get_real_transcript`)

  /** A clip as `find_clips` returns it. */
  datatype SimpleClip = SimpleClip(
    startTime: real, endTime: real, transcriptText: string, quotableLine: string,
    whyGood: string, pattern: string, speaker: Option<string>)

  /** The segment overlaps the window (strictly, at both ends). */
  function Overlapping(start: real, end: real): Segment -> bool {
    (seg: Segment) => seg.start < end && seg.end > start
  }

  /** The segment lies within the window widened by 5 s on both sides. */
  function NearWindow(start: real, end: real): Segment -> bool {
    (seg: Segment) => seg.start >= start - 5.0 && seg.end <= end + 5.0
  }

  /** The verbatim text for a window: the overlapping segments, or when there is none
      the segments near the window, joined and stripped; "" without a transcript. */
  function RealTranscript(t: Option<Transcript>, start: real, end: real): string {
    if t.None? then ""
    else
      var segs := t.value.segments;
      var overlapping := Filter(segs, Overlapping(start, end));
      Strip(Join(" ", Texts(if overlapping != [] then overlapping else Filter(segs, NearWindow(start, end)))))
  }

  /** Overlapping segments are used, in transcript order, whenever there is one; the
      widened window only when there is none. */
  lemma RealTranscriptChoice(t: Transcript, start: real, end: real)
    ensures var overlapping := Filter(t.segments, Overlapping(start, end));
      && (forall seg :: seg in overlapping <==> seg in t.segments && seg.start < end && seg.end > start)
      && IsSubsequence(overlapping, t.segments)
      && ((exists seg :: seg in t.segments && seg.start < end && seg.end > start) ==>
            RealTranscript(Some(t), start, end) == Strip(Join(" ", Texts(overlapping))))
      && ((forall seg :: seg in t.segments ==> !(seg.start < end && seg.end > start)) ==>
            RealTranscript(Some(t), start, end) == Strip(Join(" ", Texts(Filter(t.segments, NearWindow(start, end))))))
  {
    var overlapping := Filter(t.segments, Overlapping(start, end));
    forall seg | seg in t.segments && seg.start < end && seg.end > start ensures seg in overlapping {
      FilterHas(t.segments, Overlapping(start, end), seg);
    }
    FilterIsSubsequence(t.segments, Overlapping(start, end));
  }

  /** Grounded text is never invented: it is empty unless some segment overlaps the
      window or lies near it. */
  lemma RealTranscriptSound(t: Option<Transcript>, start: real, end: real)
    requires RealTranscript(t, start, end) != ""
    ensures t.Some?
    ensures exists seg :: seg in t.value.segments && (Overlapping(start, end)(seg) || NearWindow(start, end)(seg))
  {
    var segs := t.value.segments;
    var overlapping := Filter(segs, Overlapping(start, end));
    var relevant := if overlapping != [] then overlapping else Filter(segs, NearWindow(start, end));
    assert relevant[0] in relevant;
  }

  /** One collecting loop of `_get_real_transcript`: the texts of the segments that
      pass `keep`, in transcript order. */
  method CollectTexts(segs: seq<Segment>, keep: Segment -> bool) returns (texts: seq<string>)
    ensures texts == Texts(Filter(segs, keep))
  {
    texts := [];
    var i := 0;
    while i < |segs|
      invariant 0 <= i <= |segs|
      invariant texts == Texts(Filter(segs[..i], keep))
    {
      assert segs[..i + 1][..i] == segs[..i];
      if keep(segs[i]) {
        TextsAppend(Filter(segs[..i], keep), segs[i]);
        texts := texts + [segs[i].text];
      }
      i := i + 1;
    }
    assert segs[..i] == segs;
  }

  // ---------------------------------------------------------------------------
  // The timestamped transcript (`_format_transcript`)

  const MiddleMarker := "\n... [MIDDLE OF PODCAST] ..."
  const EndMarker := "\n... [END OF PODCAST] ..."
  const TruncatedMarker := "\n... [TRUNCATED]"

  lemma ScaledBelow(n: nat, a: nat, b: nat)
    requires a <= b <= 100
    ensures n * a / 100 <= n * b / 100 <= n
  {
    assert n * a <= n * b <= n * 100;
  }

  /** The first 40 %, the middle 35-65 % and the last 30 % of the lines, with markers
      (`int(n * f)` taken as the exact floor). */
  function SampleLines(lines: seq<string>): seq<string> {
    var n := |lines|;
    ScaledBelow(n, 40, 100);
    ScaledBelow(n, 35, 65);
    ScaledBelow(n, 70, 100);
    lines[..n * 40 / 100] + [MiddleMarker] + lines[n * 35 / 100..n * 65 / 100] + [EndMarker] + lines[n * 70 / 100..]
  }

  /** `_format_transcript`; the result is never longer than `maxChars` plus the marker. */
  function FormatTranscript(t: Transcript, maxChars: nat, fmt0: real -> string): (r: string)
    ensures |r| <= maxChars + |TruncatedMarker|
  {
    var late := TimestampedLines(Filter(t.segments, StartsFrom(30.0)), fmt0);
    var allLines := if late != [] then late else TimestampedLines(Filter(t.segments, StartsFrom(60.0)), fmt0);
    if allLines == [] then ""
    else
      var fullText := Join("\n", allLines);
      if |fullText| <= maxChars then fullText
      else
        var result := Join("\n", SampleLines(allLines));
        if |result| > maxChars then result[..maxChars] + TruncatedMarker else result
  }

  /** The fallback to segments from 60 s on never finds anything the 30 s filter missed. */
  lemma SixtySecondFallbackDead(segs: seq<Segment>)
    requires Filter(segs, StartsFrom(30.0)) == []
    ensures Filter(segs, StartsFrom(60.0)) == []
  {
    if Filter(segs, StartsFrom(60.0)) != [] {
      var seg := Filter(segs, StartsFrom(60.0))[0];
      assert seg in Filter(segs, StartsFrom(60.0));
      FilterHas(segs, StartsFrom(30.0), seg);
      assert false;
    }
  }

  /** Only segments from 30 s on matter: transcripts that agree on them format alike. */
  lemma FormatUsesLateSegments(t1: Transcript, t2: Transcript, maxChars: nat, fmt0: real -> string)
    requires Filter(t1.segments, StartsFrom(30.0)) == Filter(t2.segments, StartsFrom(30.0))
    ensures FormatTranscript(t1, maxChars, fmt0) == FormatTranscript(t2, maxChars, fmt0)
  {
    if Filter(t1.segments, StartsFrom(30.0)) == [] {
      SixtySecondFallbackDead(t1.segments);
      SixtySecondFallbackDead(t2.segments);
    }
  }

  /** A text that fits is returned whole. */
  lemma FormatShortIsFull(t: Transcript, maxChars: nat, fmt0: real -> string)
    requires |Join("\n", TimestampedLines(Filter(t.segments, StartsFrom(30.0)), fmt0))| <= maxChars
    ensures FormatTranscript(t, maxChars, fmt0) == Join("\n", TimestampedLines(Filter(t.segments, StartsFrom(30.0)), fmt0))
  {
    if Filter(t.segments, StartsFrom(30.0)) == [] {
      SixtySecondFallbackDead(t.segments);
    }
  }

  // ---------------------------------------------------------------------------
  // Clip validation in `find_clips`

  /** A time field after the `isinstance(x, str)` conversion: a number, a value that
      raises once compared or subtracted, or a string `float` rejects. */
  datatype Time = Number(x: real) | NotNumber | Raises

  function CoerceTime(j: Json, parseFloat: string -> Option<real>): Time {
    match j
    case JStr(s) =>
      (match parseFloat(RemoveChar(s, 's'))
       case Some(x) => Number(x)
       case None => Raises)
    case _ =>
      match AsNumber(j)
      case Some(x) => Number(x)
      case None => NotNumber
  }

  /** What every clip `find_clips` returns satisfies. */
  predicate GoodClip(t: Option<Transcript>, c: SimpleClip) {
    && c.startTime >= 30.0
    && 25.0 <= c.endTime - c.startTime <= 120.0
    && c.transcriptText != ""
    && c.transcriptText == RealTranscript(t, c.startTime, c.endTime)
  }

  /** One element of "clips": converted times, the intro guard, the duration guard and
      the grounding; a failed conversion or comparison raises. */
  function ValidateClip(t: Option<Transcript>, c: map<string, Json>, parseFloat: string -> Option<real>): (o: Outcome<SimpleClip>)
    ensures o.Keep? ==> GoodClip(t, o.value)
  {
    var start := CoerceTime(Get(c, "start_time", JNum(0.0)), parseFloat);
    var end := CoerceTime(Get(c, "end_time", JNum(0.0)), parseFloat);
    if start.Raises? || end.Raises? || start.NotNumber? then Crash
    else if start.x < 30.0 then Skip
    else if end.NotNumber? then Crash
    else if end.x - start.x < 25.0 || end.x - start.x > 120.0 then Skip
    else
      var grounded := RealTranscript(t, start.x, end.x);
      if grounded == "" then Skip
      else Keep(SimpleClip(start.x, end.x, grounded,
                           TextOr(Get(c, "quotable_line", JStr("")), ""), TextOr(Get(c, "why_good", JStr("")), ""),
                           TextOr(Get(c, "pattern", JStr("")), ""), OptText(Get(c, "speaker", JNull))))
  }

  /** The clips of a list of elements, or None when one of them raises. */
  function ValidateClips(t: Option<Transcript>, items: seq<map<string, Json>>, parseFloat: string -> Option<real>): (r: Option<seq<SimpleClip>>)
    ensures r.Some? ==> forall c :: c in r.value ==> GoodClip(t, c)
    decreases |items|
  {
    if items == [] then Some([])
    else match ValidateClips(t, items[..|items| - 1], parseFloat)
      case None => None
      case Some(acc) =>
        match ValidateClip(t, items[|items| - 1], parseFloat)
        case Crash => None
        case Skip => Some(acc)
        case Keep(c) => Some(acc + [c])
  }

  lemma {:induction false} ClipCrashPersists(t: Option<Transcript>, items: seq<map<string, Json>>, parseFloat: string -> Option<real>, n: nat)
    requires n <= |items| && ValidateClips(t, items[..n], parseFloat).None?
    ensures ValidateClips(t, items, parseFloat).None?
    decreases |items| - n
  {
    if n < |items| {
      assert items[..n + 1][..n] == items[..n];
      ClipCrashPersists(t, items, parseFloat, n + 1);
    } else {
      assert items[..n] == items;
    }
  }

  /** One more element: the clips so far, extended by what that element gives. */
  lemma ValidateClipsStep(t: Option<Transcript>, items: seq<map<string, Json>>, parseFloat: string -> Option<real>,
                          i: nat, kept: seq<SimpleClip>)
    requires i < |items| && ValidateClips(t, items[..i], parseFloat) == Some(kept)
    ensures ValidateClips(t, items[..i + 1], parseFloat)
      == match ValidateClip(t, items[i], parseFloat)
         case Crash => None
         case Skip => Some(kept)
         case Keep(x) => Some(kept + [x])
  {
    assert items[..i + 1][..i] == items[..i];
  }

  /** How one attempt ends: leaving the loop (an exception other than a JSON error),
      going on to the next attempt (no JSON, a reply that parses to `null`, which the
      source turns into a `JSONDecodeError`, or no clip kept), or with clips. */
  datatype AttemptResult = Abort | Retry | Found(clips: seq<SimpleClip>)

  function Attempt(t: Option<Transcript>, reply: Option<string>, loads: string -> Option<Json>,
                   parseFloat: string -> Option<real>): (a: AttemptResult)
    ensures a.Found? ==> a.clips != [] && forall c :: c in a.clips ==> GoodClip(t, c)
    ensures reply.Some? && ParseResponse(loads, reply.value) in {None, Some(JNull)} ==> a.Retry?
  {
    if reply.None? then Abort
    else match ParseResponse(loads, reply.value)
      case None => Retry
      case Some(result) =>
        if result.JNull? then Retry
        else match ListField(result, "clips")
        case None => Abort
        case Some(items) =>
          match ValidateClips(t, items, parseFloat)
          case None => Abort
          case Some(clips) => if clips == [] then Retry else Found(clips)
  }

  /** The two attempts: the first reply, and the second one only after a retry. */
  function SearchResult(t: Option<Transcript>, maxClips: nat, first: Option<string>, second: Option<string>,
                        loads: string -> Option<Json>, parseFloat: string -> Option<real>): seq<SimpleClip>
  {
    match Attempt(t, first, loads, parseFloat)
    case Found(cs) => FirstN(cs, maxClips)
    case Abort => []
    case Retry =>
      match Attempt(t, second, loads, parseFloat)
      case Found(cs) => FirstN(cs, maxClips)
      case _ => []
  }

  /** At most `maxClips` clips, each starting at 30 s or later, lasting 25 to 120 s and
      carrying the non-empty verbatim text of its window; nothing when the first attempt
      aborts; and when the first reply does not parse, or parses to `null`, the result
      is exactly what the second reply yields. */
  lemma SearchResultSpec(t: Option<Transcript>, maxClips: nat, first: Option<string>, second: Option<string>,
                         loads: string -> Option<Json>, parseFloat: string -> Option<real>)
    ensures var r := SearchResult(t, maxClips, first, second, loads, parseFloat);
      && |r| <= maxClips
      && (forall c :: c in r ==> GoodClip(t, c))
      && (Attempt(t, first, loads, parseFloat).Abort? ==> r == [])
      && (first.Some? && ParseResponse(loads, first.value) in {None, Some(JNull)} ==>
            r == (match Attempt(t, second, loads, parseFloat) case Found(cs) => FirstN(cs, maxClips) case _ => []))
  {
    var a := Attempt(t, first, loads, parseFloat);
    var r := SearchResult(t, maxClips, first, second, loads, parseFloat);
    if a.Found? {
      assert r == FirstN(a.clips, maxClips);
      FirstNGood(t, a.clips, maxClips);
    } else if a.Retry? {
      var b := Attempt(t, second, loads, parseFloat);
      if b.Found? {
        assert r == FirstN(b.clips, maxClips);
        FirstNGood(t, b.clips, maxClips);
      }
    }
  }

  lemma FirstNGood(t: Option<Transcript>, cs: seq<SimpleClip>, maxClips: nat)
    requires forall c :: c in cs ==> GoodClip(t, c)
    ensures |FirstN(cs, maxClips)| <= maxClips
    ensures forall c :: c in FirstN(cs, maxClips) ==> GoodClip(t, c)
  {
    FirstNMembers(cs, maxClips);
  }

  // ---------------------------------------------------------------------------
  // The finder object

  class ClipFinderV4 {
    const maxClips: nat
    /** `self._current_transcript`; None until `find_clips` stores one. */
    var currentTranscript: Option<Transcript>

    constructor ()
      ensures maxClips == 3 && currentTranscript.None?
    {
      maxClips := 3;
      currentTranscript := None;
    }

    /** `_get_real_transcript`: the overlapping texts, else the ones near the window. */
    method GetRealTranscript(start: real, end: real) returns (text: string)
      ensures text == RealTranscript(currentTranscript, start, end)
    {
      if currentTranscript.None? {
        return "";
      }
      var segs := currentTranscript.value.segments;
      var relevantSegments := CollectTexts(segs, Overlapping(start, end));
      if relevantSegments == [] {
        relevantSegments := CollectTexts(segs, NearWindow(start, end));
      }
      text := Strip(Join(" ", relevantSegments));
    }

    /** The body of the loop over "clips" for one element. */
    method CheckClip(c: map<string, Json>, parseFloat: string -> Option<real>) returns (o: Outcome<SimpleClip>)
      ensures o == ValidateClip(currentTranscript, c, parseFloat)
    {
      var start := CoerceTime(Get(c, "start_time", JNum(0.0)), parseFloat);
      var end := CoerceTime(Get(c, "end_time", JNum(0.0)), parseFloat);
      if start.Raises? || end.Raises? || start.NotNumber? {
        return Crash;
      }
      if start.x < 30.0 {
        return Skip;
      }
      if end.NotNumber? {
        return Crash;
      }
      var duration := end.x - start.x;
      if duration < 25.0 || duration > 120.0 {
        return Skip;
      }
      var grounded := GetRealTranscript(start.x, end.x);
      if grounded == "" {
        return Skip;
      }
      o := Keep(SimpleClip(start.x, end.x, grounded,
                           TextOr(Get(c, "quotable_line", JStr("")), ""), TextOr(Get(c, "why_good", JStr("")), ""),
                           TextOr(Get(c, "pattern", JStr("")), ""), OptText(Get(c, "speaker", JNull))));
    }

    /** The loop over the elements of "clips" in one attempt; a raising element ends it. */
    method CollectClips(items: seq<map<string, Json>>, parseFloat: string -> Option<real>)
      returns (clips: Option<seq<SimpleClip>>)
      ensures clips == ValidateClips(currentTranscript, items, parseFloat)
    {
      var kept: seq<SimpleClip> := [];
      var i := 0;
      while i < |items|
        invariant 0 <= i <= |items|
        invariant ValidateClips(currentTranscript, items[..i], parseFloat) == Some(kept)
      {
        var o := CheckClip(items[i], parseFloat);
        ValidateClipsStep(currentTranscript, items, parseFloat, i, kept);
        match o {
          case Crash =>
            ClipCrashPersists(currentTranscript, items, parseFloat, i + 1);
            return None;
          case Skip =>
          case Keep(x) =>
            kept := kept + [x];
        }
        i := i + 1;
      }
      assert items[..i] == items;
      clips := Some(kept);
    }

    /** The body of one attempt of `find_clips`. */
    method RunAttempt(reply: Option<string>, loads: string -> Option<Json>, parseFloat: string -> Option<real>)
      returns (a: AttemptResult)
      ensures a == Attempt(currentTranscript, reply, loads, parseFloat)
    {
      if reply.None? {
        return Abort;
      }
      var result := ParseJsonResponse(loads, reply.value);
      if result.None? || result.value.JNull? {
        return Retry;
      }
      var items := ListField(result.value, "clips");
      if items.None? {
        return Abort;
      }
      var found := CollectClips(items.value, parseFloat);
      if found.None? {
        return Abort;
      }
      if found.value == [] {
        return Retry;
      }
      return Found(found.value);
    }

    /** `find_clips`: at most two attempts, the second with the simple prompt. */
    method FindClips(transcript: Transcript, chat: string -> Option<string>,
                     mainPrompt: string -> string, simplePrompt: string -> string,
                     loads: string -> Option<Json>, parseFloat: string -> Option<real>, fmt0: real -> string)
      returns (clips: seq<SimpleClip>)
      modifies this
      ensures currentTranscript == Some(transcript)
      ensures var text := FormatTranscript(transcript, 15000, fmt0);
        clips == SearchResult(Some(transcript), maxClips, chat(mainPrompt(text)), chat(simplePrompt(text)), loads, parseFloat)
    {
      currentTranscript := Some(transcript);
      var timestampedText := FormatTranscript(transcript, 15000, fmt0);
      ghost var first := chat(mainPrompt(timestampedText));
      ghost var second := chat(simplePrompt(timestampedText));
      ghost var t := Some(transcript);
      var prompt := mainPrompt(timestampedText);
      var attempt := 0;
      while attempt < 2
        invariant 0 <= attempt <= 2
        invariant currentTranscript == t
        invariant attempt == 0 ==> prompt == mainPrompt(timestampedText)
        invariant attempt == 1 ==> prompt == simplePrompt(timestampedText) && Attempt(t, first, loads, parseFloat).Retry?
        invariant attempt == 2 ==> SearchResult(t, maxClips, first, second, loads, parseFloat) == []
      {
        var outcome := RunAttempt(chat(prompt), loads, parseFloat);
        if outcome.Abort? {
          break;
        }
        if outcome.Found? {
          return FirstN(outcome.clips, maxClips);
        }
        if attempt == 0 {
          prompt := simplePrompt(timestampedText);
        }
        attempt := attempt + 1;
      }
      return [];
    }
  }
}
