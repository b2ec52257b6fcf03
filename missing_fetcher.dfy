/**
 * `TranscriptFetcherV2` and the batch loop `fetch_missing_transcripts` of
 * scripts/fetch_missing_transcripts.py: youtube-transcript-api first (a
 * manual English track, then a generated one, then a translation into
 * English), yt-dlp subtitles second, and a batch loop that rejects
 * transcripts shorter than `min_chars`.
 *
 * What the two libraries return for a video is an input: a `TranscriptList`
 * for youtube-transcript-api and a `YdlInfo` for yt-dlp, each `None` when
 * the lookup raises.
 */
module MissingFetcher {
  import opened Options
  import opened PyStr
  import opened Selection
  import opened Lists

  /** Both fetch methods accept text only when it has at least this many characters. */
  const MinLength: nat := 50

  /** The languages tried, in order, for a translation into English. */
  const TranslationLanguages: seq<string> := ["vi", "es", "fr", "de", "ja", "ko", "zh", "hi", "ar"]

  /** A transcript and the tag naming how it was obtained. */
  datatype Tagged = Tagged(text: string, tag: string)

  // ---------------------------------------------------------------------------
  // _parse_subtitle_text
  // ---------------------------------------------------------------------------

  /** The test a stripped subtitle line must pass to be kept as text. */
  predicate KeepLine(line: string) {
    && line != ""
    && !StartsWith(line, "WEBVTT")
    && !StartsWith(line, "NOTE")
    && !Contains(line, "-->")
    && !IsDigits(line)
    && !StartsWith(line, "<")
    && |line| > 2
  }

  /** What one line contributes: its stripped form if that passes the test. */
  function Kept(line: string): (r: seq<string>)
    ensures |r| <= 1
  {
    var stripped := Strip(line);
    if KeepLine(stripped) then [stripped] else []
  }

  /** The stripped lines that pass `KeepLine`, in order. */
  function KeptLines(lines: seq<string>): seq<string> {
    FlatMap(lines, Kept)
  }

  /** Every kept line is stripped and passes the test. */
  lemma KeptLinesPass(lines: seq<string>)
    ensures forall k :: 0 <= k < |KeptLines(lines)| ==> KeepLine(KeptLines(lines)[k]) && Trimmed(KeptLines(lines)[k])
  {
    FlatMapAll(lines, Kept, KeptForm);
  }

  /** The form of a kept line: it passes the test and has no whitespace at either end. */
  predicate KeptForm(line: string) {
    KeepLine(line) && Trimmed(line)
  }

  /** Filtering a concatenation filters each part: order is kept and nothing moves across. */
  lemma KeptLinesAppend(a: seq<string>, b: seq<string>)
    ensures KeptLines(a + b) == KeptLines(a) + KeptLines(b)
  {
    FlatMapAppend(a, b, Kept);
  }

  /** The kept lines of a list's first `i + 1` lines, from those of its first `i`. */
  lemma KeptLinesPrefix(lines: seq<string>, i: nat)
    requires i < |lines|
    ensures KeptLines(lines[..i + 1]) ==
      KeptLines(lines[..i]) + if KeepLine(Strip(lines[i])) then [Strip(lines[i])] else []
  {
    FlatMapPrefix(lines, i, Kept);
  }

  /** One line is kept, stripped, exactly when its stripped form passes the test. */
  lemma KeptLinesOne(line: string)
    ensures KeptLines([line]) == if KeepLine(Strip(line)) then [Strip(line)] else []
  {
    FlatMapOne(line, Kept);
  }

  /** What `_parse_subtitle_text` returns for a subtitle file. */
  function SubtitleText(content: string): string {
    Collapse(JoinSpace(KeptLines(SplitOn(content, '\n'))))
  }

  /**
   * The parsed text is whitespace-normalised, a fixed point of the
   * collapse, and holds exactly the words of the kept lines, in order.
   */
  lemma SubtitleTextSpec(content: string)
    ensures var text := SubtitleText(content);
      && Normalized(text)
      && Collapse(text) == text
      && Words(text) == AllWords(KeptLines(SplitOn(content, '\n')))
  {
    var kept := KeptLines(SplitOn(content, '\n'));
    CollapseIdempotent(JoinSpace(kept));
    WordsOfJoinSpace(kept);
  }

  // ---------------------------------------------------------------------------
  // Method 1: youtube-transcript-api
  // ---------------------------------------------------------------------------

  /** A transcript found in the list: the texts of its entries, `None` when `fetch()` raises. */
  datatype Transcript = Transcript(fetched: Option<seq<string>>)

  /**
   * What `list_transcripts` returns: the manually created and the generated
   * transcript for `en`/`en-US`/`en-GB` (`None` when the lookup raises
   * `NoTranscriptFound`), and for each language the transcript found and
   * translated into English (`None` when either step raises).
   */
  datatype TranscriptList = TranscriptList(
    manualEn: Option<Transcript>,
    generatedEn: Option<Transcript>,
    translation: string -> Option<Transcript>)

  /** The test "a translation from this language can be had". */
  function Translatable(tl: TranscriptList): (p: string -> bool)
    ensures forall lang :: p(lang) == tl.translation(lang).Some?
  {
    lang => tl.translation(lang).Some?
  }

  /** The transcript the priority tiers settle on and its `method_name`. */
  function Tier(tl: TranscriptList): Option<(Transcript, string)> {
    if tl.manualEn.Some? then Some((tl.manualEn.value, "manual"))
    else if tl.generatedEn.Some? then Some((tl.generatedEn.value, "auto-generated"))
    else match FirstWhere(TranslationLanguages, Translatable(tl))
      case None => None
      case Some(j) => Some((tl.translation(TranslationLanguages[j]).value, "translated-" + TranslationLanguages[j]))
  }

  /**
   * The tier order: a manual English transcript, else a generated one,
   * else the first language of the list whose translation succeeds, else
   * nothing.
   */
  lemma TierOrder(tl: TranscriptList)
    ensures tl.manualEn.Some? ==> Tier(tl) == Some((tl.manualEn.value, "manual"))
    ensures tl.manualEn.None? && tl.generatedEn.Some? ==> Tier(tl) == Some((tl.generatedEn.value, "auto-generated"))
    ensures tl.manualEn.None? && tl.generatedEn.None? ==>
      (Tier(tl).None? <==> forall j :: 0 <= j < |TranslationLanguages| ==> tl.translation(TranslationLanguages[j]).None?)
    ensures tl.manualEn.None? && tl.generatedEn.None? ==>
      forall j :: (0 <= j < |TranslationLanguages| && tl.translation(TranslationLanguages[j]).Some? &&
        (forall k :: 0 <= k < j ==> tl.translation(TranslationLanguages[k]).None?)) ==>
        Tier(tl) == Some((tl.translation(TranslationLanguages[j]).value, "translated-" + TranslationLanguages[j]))
  {
    if tl.manualEn.None? && tl.generatedEn.None? {
      var first := FirstWhere(TranslationLanguages, Translatable(tl));
      forall j | 0 <= j < |TranslationLanguages| && tl.translation(TranslationLanguages[j]).Some? &&
        (forall k :: 0 <= k < j ==> tl.translation(TranslationLanguages[k]).None?)
        ensures first == Some(j)
      {
        assert first.Some?;
        assert !(first.value < j);
        assert !(first.value > j);
      }
    }
  }

  /** The entries joined by spaces, newlines turned into spaces, whitespace collapsed. */
  function FetchedText(entries: seq<string>): string {
    Collapse(ReplaceChar(JoinSpace(entries), '\n', ' '))
  }

  /**
   * What `get_transcript_method1` returns, given whether the library is
   * installed and what it lists. The final `strip()` is left out here: on
   * a collapsed text it changes nothing (`CollapsedIsStripped`).
   */
  function Method1Result(hasApi: bool, listing: Option<TranscriptList>): Option<Tagged> {
    if !hasApi || listing.None? then None
    else match Tier(listing.value)
      case None => None
      case Some(chosen) =>
        if chosen.0.fetched.None? then None
        else
          var full := FetchedText(chosen.0.fetched.value);
          if full == "" || |full| < MinLength then None
          else Some(Tagged(full, chosen.1))
  }

  /**
   * Method 1 returns the collapsed text of the transcript its tiers chose,
   * tagged with the tier's name, and only when that text has at least 50
   * characters.
   */
  lemma Method1Spec(hasApi: bool, listing: Option<TranscriptList>)
    ensures var r := Method1Result(hasApi, listing);
      r.Some? ==>
        && hasApi && listing.Some?
        && Tier(listing.value).Some?
        && Tier(listing.value).value.0.fetched.Some?
        && r.value.text == FetchedText(Tier(listing.value).value.0.fetched.value)
        && r.value.tag == Tier(listing.value).value.1
        && |r.value.text| >= MinLength
        && Normalized(r.value.text)
    ensures (hasApi && listing.Some? && Tier(listing.value).Some? && Tier(listing.value).value.0.fetched.Some? &&
      |FetchedText(Tier(listing.value).value.0.fetched.value)| >= MinLength) ==> Method1Result(hasApi, listing).Some?
  {
  }

  /** Stripping a whitespace-collapsed text changes nothing. */
  lemma CollapsedIsStripped(s: string)
    requires Normalized(s)
    ensures Strip(s) == s
  {
    NormalizedTrimmed(s);
    StripOfTrimmed(s);
  }

  /** A whitespace-normalised string has no whitespace at either end. */
  lemma NormalizedTrimmed(s: string)
    requires Normalized(s)
    ensures Trimmed(s)
  {
    if s != [] {
      assert !IsSpace(s[0]) && !IsSpace(s[|s| - 1]);
    }
  }

  // ---------------------------------------------------------------------------
  // Method 2: yt-dlp
  // ---------------------------------------------------------------------------

  /**
   * What `extract_info` reports: the `en` entry of `subtitles` and of
   * `automatic_captions` (`None` when absent), each a list holding, per
   * subtitle format, the body served at its `url` (`None` when the request
   * raises).
   */
  datatype YdlInfo = YdlInfo(subtitles: Option<seq<Option<string>>>, automaticCaptions: Option<seq<Option<string>>>)

  /** What trying one subtitle source yields. */
  datatype Attempt = Skipped | Raised | Parsed(text: string)

  /** Trying the first format of an `en` subtitle entry. */
  function TryFirst(entry: Option<seq<Option<string>>>): Attempt {
    if entry.None? || entry.value == [] then Skipped
    else if entry.value[0].None? then Raised
    else Parsed(SubtitleText(entry.value[0].value))
  }

  /** `text and len(text) >= 50` */
  predicate Accepted(a: Attempt) {
    a.Parsed? && a.text != "" && |a.text| >= MinLength
  }

  /** What `get_transcript_method2` returns; a request that raises ends the method. */
  function Method2Result(hasYtDlp: bool, info: Option<YdlInfo>): Option<Tagged> {
    if !hasYtDlp || info.None? then None
    else
      var manual := TryFirst(info.value.subtitles);
      if manual.Raised? then None
      else if Accepted(manual) then Some(Tagged(manual.text, "yt-dlp-manual"))
      else
        var auto := TryFirst(info.value.automaticCaptions);
        if auto.Raised? then None
        else if Accepted(auto) then Some(Tagged(auto.text, "yt-dlp-auto"))
        else None
  }

  /**
   * Manual subtitles are tried before automatic captions: the automatic
   * ones are used only when the manual ones were skipped or too short, and
   * whatever is returned has at least 50 characters.
   */
  lemma Method2Order(hasYtDlp: bool, info: Option<YdlInfo>)
    ensures var r := Method2Result(hasYtDlp, info);
      && (r.Some? ==> |r.value.text| >= MinLength && (r.value.tag == "yt-dlp-manual" || r.value.tag == "yt-dlp-auto"))
      && (r.Some? && r.value.tag == "yt-dlp-manual" <==>
            hasYtDlp && info.Some? && Accepted(TryFirst(info.value.subtitles)))
      && (r.Some? && r.value.tag == "yt-dlp-manual" ==> r.value.text == TryFirst(info.value.subtitles).text)
      && (r.Some? && r.value.tag == "yt-dlp-auto" ==>
            && !Accepted(TryFirst(info.value.subtitles)) && !TryFirst(info.value.subtitles).Raised?
            && Accepted(TryFirst(info.value.automaticCaptions))
            && r.value.text == TryFirst(info.value.automaticCaptions).text)
  {
  }

  // ---------------------------------------------------------------------------
  // get_transcript: method 1, then method 2
  // ---------------------------------------------------------------------------

  /** Which of the two libraries are installed. */
  datatype Libraries = Libraries(transcriptApi: bool, ytDlp: bool)

  /** What the two libraries return for one video. */
  datatype Sources = Sources(listing: Option<TranscriptList>, info: Option<YdlInfo>)

  /** A result of `get_transcript` that came from method 1. */
  predicate FromMethod1(t: Tagged) {
    StartsWith(t.tag, "method1-")
  }

  /** `transcript and len(transcript) >= 50`, applied to a method's result. */
  predicate Good(r: Option<Tagged>) {
    r.Some? && r.value.text != "" && |r.value.text| >= MinLength
  }

  /** `get_transcript`'s decision, given what method 1 and method 2 return. */
  function Combine(m1: Option<Tagged>, m2: Option<Tagged>): Option<Tagged> {
    if Good(m1) then Some(Tagged(m1.value.text, "method1-" + m1.value.tag))
    else if Good(m2) then Some(Tagged(m2.value.text, "method2-" + m2.value.tag))
    else None
  }

  /**
   * Method 2's result is used only when method 1's is not good; a result
   * is tagged after the method that produced it and has at least 50
   * characters.
   */
  lemma CombineSpec(m1: Option<Tagged>, m2: Option<Tagged>)
    ensures var r := Combine(m1, m2);
      && (Good(m1) ==> r == Some(Tagged(m1.value.text, "method1-" + m1.value.tag)))
      && (!Good(m1) && Good(m2) ==> r == Some(Tagged(m2.value.text, "method2-" + m2.value.tag)))
      && (r.Some? ==> |r.value.text| >= MinLength)
      && (r.Some? ==> (FromMethod1(r.value) <==> Good(m1)))
      && (r.None? <==> !Good(m1) && !Good(m2))
  {
    if !Good(m1) && Good(m2) {
      assert ("method2-" + m2.value.tag)[6] == '2';
    }
    if Good(m1) {
      assert ("method1-" + m1.value.tag)[..8] == "method1-";
    }
  }

  /** What `get_transcript` returns. */
  function TwoStage(libs: Libraries, src: Sources): Option<Tagged> {
    Combine(Method1Result(libs.transcriptApi, src.listing), Method2Result(libs.ytDlp, src.info))
  }

  /**
   * Method 2's result counts only when method 1 yields nothing (that it is
   * called only then is `TranscriptFetcherV2.GetTranscript`'s `ranMethod2`
   * clause); a result comes from
   * the first method that yields one, is tagged after it, and has at
   * least 50 characters.
   */
  lemma TwoStageSpec(libs: Libraries, src: Sources)
    ensures var r := TwoStage(libs, src);
      var m1 := Method1Result(libs.transcriptApi, src.listing);
      var m2 := Method2Result(libs.ytDlp, src.info);
      && (m1.Some? ==> r == Some(Tagged(m1.value.text, "method1-" + m1.value.tag)))
      && (m1.None? ==> r == if m2.Some? then Some(Tagged(m2.value.text, "method2-" + m2.value.tag)) else None)
      && (r.Some? ==> |r.value.text| >= MinLength)
      && (r.Some? ==> (FromMethod1(r.value) <==> m1.Some?))
      && (r.None? <==> m1.None? && m2.None?)
  {
    var m1 := Method1Result(libs.transcriptApi, src.listing);
    var m2 := Method2Result(libs.ytDlp, src.info);
    Method1Spec(libs.transcriptApi, src.listing);
    Method2Order(libs.ytDlp, src.info);
    CombineSpec(m1, m2);
  }

  /** `_parse_subtitle_text`: the kept lines of a VTT or SRT file, joined and collapsed. */
  method ParseSubtitleText(content: string) returns (text: string)
    ensures text == SubtitleText(content)
  {
    var lines := SplitOn(content, '\n');
    var textLines := CollectTextLines(lines);
    text := JoinSpace(textLines);
    text := Collapse(text);
  }

  /** The loop of `_parse_subtitle_text`: each line stripped, and appended when it passes the test. */
  method CollectTextLines(lines: seq<string>) returns (textLines: seq<string>)
    ensures textLines == KeptLines(lines)
  {
    textLines := [];
    var i := 0;
    while i < |lines|
      invariant 0 <= i <= |lines|
      invariant textLines == KeptLines(lines[..i])
    {
      KeptLinesPrefix(lines, i);
      var line := Strip(lines[i]);
      if KeepLine(line) {
        textLines := textLines + [line];
      }
      i := i + 1;
    }
    assert lines[..|lines|] == lines;
  }

  /** `TranscriptFetcherV2` with its four counters. */
  class TranscriptFetcherV2 {
    var successCount: int
    var failCount: int
    var method1Success: int
    var method2Success: int

    constructor ()
      ensures successCount == 0 && failCount == 0 && method1Success == 0 && method2Success == 0
    {
      successCount := 0;
      failCount := 0;
      method1Success := 0;
      method2Success := 0;
    }

    /** `get_transcript_method1`: walks the tiers and the translation languages, first success wins. */
    method Method1(hasApi: bool, listing: Option<TranscriptList>) returns (r: Option<Tagged>)
      ensures r == Method1Result(hasApi, listing)
    {
      if !hasApi || listing.None? {
        return None;
      }
      var tl := listing.value;
      var transcript := Transcript(None);
      var methodName: Option<string> := None;
      if tl.manualEn.Some? {
        transcript := tl.manualEn.value;
        methodName := Some("manual");
      } else if tl.generatedEn.Some? {
        transcript := tl.generatedEn.value;
        methodName := Some("auto-generated");
      } else {
        var i := 0;
        while i < |TranslationLanguages|
          invariant 0 <= i <= |TranslationLanguages|
          invariant forall j :: 0 <= j < i ==> tl.translation(TranslationLanguages[j]).None?
          invariant methodName.None?
        {
          var lang := TranslationLanguages[i];
          var found := tl.translation(lang);
          if found.Some? {
            transcript := found.value;
            methodName := Some("translated-" + lang);
            assert FirstWhere(TranslationLanguages, Translatable(tl)) == Some(i) by {
              var first := FirstWhere(TranslationLanguages, Translatable(tl));
              assert first.Some?;
              assert !(first.value < i) && !(first.value > i);
            }
            break;
          }
          i := i + 1;
        }
        if methodName.None? {
          return None;
        }
      }
      assert Tier(tl) == Some((transcript, methodName.value));
      if transcript.fetched.None? {
        return None;
      }
      var fullText := JoinSpace(transcript.fetched.value);
      fullText := ReplaceChar(fullText, '\n', ' ');
      fullText := Collapse(fullText);
      if fullText == "" || |fullText| < MinLength {
        return None;
      }
      CollapsedIsStripped(fullText);
      return Some(Tagged(Strip(fullText), methodName.value));
    }

    /** `get_transcript_method2`: manual `en` subtitles, then automatic `en` captions. */
    method Method2(hasYtDlp: bool, info: Option<YdlInfo>) returns (r: Option<Tagged>)
      ensures r == Method2Result(hasYtDlp, info)
    {
      if !hasYtDlp || info.None? {
        return None;
      }
      var subtitles := info.value.subtitles;
      if subtitles.Some? && subtitles.value != [] {
        var response := subtitles.value[0];
        if response.None? {
          return None;
        }
        var text := ParseSubtitleText(response.value);
        if text != "" && |text| >= MinLength {
          return Some(Tagged(text, "yt-dlp-manual"));
        }
      }
      var captions := info.value.automaticCaptions;
      if captions.Some? && captions.value != [] {
        var response := captions.value[0];
        if response.None? {
          return None;
        }
        var text := ParseSubtitleText(response.value);
        if text != "" && |text| >= MinLength {
          return Some(Tagged(text, "yt-dlp-auto"));
        }
      }
      return None;
    }

    /**
     * `get_transcript`: method 1, and method 2 only when method 1 fails.
     * `ranMethod2` records whether `Method2` was called.
     * Exactly one of `successCount`/`failCount` goes up, and on success
     * exactly one of `method1Success`/`method2Success`.
     */
    method GetTranscript(libs: Libraries, src: Sources) returns (r: Option<Tagged>, ghost ranMethod2: bool)
      modifies this
      ensures ranMethod2 <==> !Good(Method1Result(libs.transcriptApi, src.listing))
      ensures ranMethod2 <==> Method1Result(libs.transcriptApi, src.listing).None?
      ensures r == TwoStage(libs, src)
      ensures successCount == old(successCount) + (if r.Some? then 1 else 0)
      ensures failCount == old(failCount) + (if r.None? then 1 else 0)
      ensures method1Success == old(method1Success) + (if r.Some? && FromMethod1(r.value) then 1 else 0)
      ensures method2Success == old(method2Success) + (if r.Some? && !FromMethod1(r.value) then 1 else 0)
    {
      TwoStageSpec(libs, src);
      Method1Spec(libs.transcriptApi, src.listing);
      ranMethod2 := false;
      var first := Method1(libs.transcriptApi, src.listing);
      if first.Some? && first.value.text != "" && |first.value.text| >= MinLength {
        successCount := successCount + 1;
        method1Success := method1Success + 1;
        return Some(Tagged(first.value.text, "method1-" + first.value.tag)), ranMethod2;
      }
      ranMethod2 := true;
      var second := Method2(libs.ytDlp, src.info);
      if second.Some? && second.value.text != "" && |second.value.text| >= MinLength {
        successCount := successCount + 1;
        method2Success := method2Success + 1;
        return Some(Tagged(second.value.text, "method2-" + second.value.tag)), ranMethod2;
      }
      failCount := failCount + 1;
      return None, ranMethod2;
    }
  }

  // ---------------------------------------------------------------------------
  // fetch_missing_transcripts: the batch loop
  // ---------------------------------------------------------------------------

  /** A video lacking a good transcript, with what the libraries return for it. */
  datatype Candidate = Candidate(videoId: string, sources: Sources)

  /** What `get_transcript` returns for each candidate, with the given libraries installed. */
  function ResultFor(libs: Libraries): Candidate -> Option<Tagged> {
    (v: Candidate) => TwoStage(libs, v.sources)
  }

  /** The results of `fetch` for each candidate, in order. */
  function Outcomes(fetch: Candidate -> Option<Tagged>, videos: seq<Candidate>): (outs: seq<Option<Tagged>>)
    ensures |outs| == |videos|
  {
    if videos == [] then []
    else Outcomes(fetch, videos[..|videos| - 1]) + [fetch(videos[|videos| - 1])]
  }

  /** A transcript that was found but is shorter than `min_chars`. */
  predicate Rejected(o: Option<Tagged>, minChars: int) {
    o.Some? && |o.value.text| < minChars
  }

  /** The (video, transcript) updates the loop makes: every found transcript that is not rejected. */
  function Writes(videos: seq<Candidate>, outs: seq<Option<Tagged>>, minChars: int): (w: seq<(string, string)>)
    requires |outs| <= |videos|
    ensures |w| <= |outs|
    ensures forall k :: 0 <= k < |w| ==> |w[k].1| >= minChars
  {
    if outs == [] then []
    else
      var n := |outs| - 1;
      Writes(videos, outs[..n], minChars) +
        (if outs[n].Some? && !Rejected(outs[n], minChars) then [(videos[n].videoId, outs[n].value.text)] else [])
  }

  /**
   * The item counts after which the loop pauses: a multiple of the batch
   * size, short of the last item, and not an item whose transcript was
   * rejected (the `continue` skips the check).
   */
  function Pauses(outs: seq<Option<Tagged>>, minChars: int, total: nat, batchSize: int): seq<nat>
    requires batchSize != 0
  {
    if outs == [] then []
    else
      var n := |outs|;
      Pauses(outs[..n - 1], minChars, total, batchSize) +
        (if !Rejected(outs[n - 1], minChars) && n % batchSize == 0 && n < total then [n] else [])
  }

  /** How many transcripts were found by method 1. */
  function Method1Count(outs: seq<Option<Tagged>>): (c: nat)
    ensures c <= |outs|
  {
    if outs == [] then 0
    else
      var o := outs[|outs| - 1];
      Method1Count(outs[..|outs| - 1]) + (if o.Some? && FromMethod1(o.value) then 1 else 0)
  }

  /** How many transcripts were found but rejected as shorter than `min_chars`. */
  function RejectedCount(outs: seq<Option<Tagged>>, minChars: int): (c: nat)
    ensures c <= |outs|
  {
    if outs == [] then 0
    else RejectedCount(outs[..|outs| - 1], minChars) + (if Rejected(outs[|outs| - 1], minChars) then 1 else 0)
  }

  /** One more candidate adds its outcome at the end. */
  lemma OutcomesSnoc(fetch: Candidate -> Option<Tagged>, videos: seq<Candidate>, i: nat)
    requires i < |videos|
    ensures Outcomes(fetch, videos[..i + 1]) == Outcomes(fetch, videos[..i]) + [fetch(videos[i])]
  {
    assert videos[..i + 1][..i] == videos[..i];
  }

  /** One outcome further, the writes gain the transcript if it was found and not rejected. */
  lemma WritesStep(videos: seq<Candidate>, outs: seq<Option<Tagged>>, o: Option<Tagged>, minChars: int)
    requires |outs| < |videos|
    ensures Writes(videos, outs + [o], minChars) == Writes(videos, outs, minChars) +
      (if o.Some? && !Rejected(o, minChars) then [(videos[|outs|].videoId, o.value.text)] else [])
  {
    assert (outs + [o])[..|outs|] == outs;
  }

  /** One outcome further, the pauses gain that item if its pause check passes. */
  lemma PausesStep(outs: seq<Option<Tagged>>, o: Option<Tagged>, minChars: int, total: nat, batchSize: int)
    requires batchSize != 0
    ensures Pauses(outs + [o], minChars, total, batchSize) == Pauses(outs, minChars, total, batchSize) +
      (if !Rejected(o, minChars) && (|outs| + 1) % batchSize == 0 && |outs| + 1 < total then [|outs| + 1] else [])
  {
    assert (outs + [o])[..|outs|] == outs;
  }

  /** One outcome further, each count goes up by one if the outcome is of its kind. */
  lemma CountsStep(outs: seq<Option<Tagged>>, o: Option<Tagged>, minChars: int)
    ensures CountSome(outs + [o]) == CountSome(outs) + (if o.Some? then 1 else 0)
    ensures RejectedCount(outs + [o], minChars) == RejectedCount(outs, minChars) + (if Rejected(o, minChars) then 1 else 0)
    ensures Method1Count(outs + [o]) == Method1Count(outs) + (if o.Some? && FromMethod1(o.value) then 1 else 0)
  {
    assert (outs + [o])[..|outs|] == outs;
  }

  /** What the batch loop leaves behind; `completed` is its return value. */
  datatype MissingReport = MissingReport(
    completed: bool,
    writes: seq<(string, string)>,
    pauses: seq<nat>,
    successCount: int,
    failCount: int,
    method1Success: int,
    method2Success: int)

  /**
   * The loop's bookkeeping once the outcomes `outs` of the first `|outs|`
   * candidates are known: the writes and pauses made so far, and the
   * fetcher's four counters, with a rejection moving a success to a failure.
   */
  ghost predicate Tallied(fetcher: TranscriptFetcherV2, videos: seq<Candidate>, outs: seq<Option<Tagged>>,
    minChars: int, batchSize: int, writes: seq<(string, string)>, pauses: seq<nat>)
    requires |outs| <= |videos| && batchSize != 0
    reads fetcher
  {
    && writes == Writes(videos, outs, minChars)
    && pauses == Pauses(outs, minChars, |videos|, batchSize)
    && fetcher.successCount == CountSome(outs) - RejectedCount(outs, minChars)
    && fetcher.failCount == |outs| - CountSome(outs) + RejectedCount(outs, minChars)
    && fetcher.method1Success == Method1Count(outs)
    && fetcher.method2Success == CountSome(outs) - Method1Count(outs)
  }

  /**
   * One pass of the batch loop for candidate `i`: fetch, then record the
   * outcome.
   */
  method FetchOne(fetcher: TranscriptFetcherV2, libs: Libraries, videos: seq<Candidate>, i: nat,
    batchSize: int, minChars: int, writes: seq<(string, string)>, pauses: seq<nat>, ghost outs: seq<Option<Tagged>>)
    returns (writes': seq<(string, string)>, pauses': seq<nat>, ghost outs': seq<Option<Tagged>>)
    requires batchSize != 0 && i < |videos|
    requires outs == Outcomes(ResultFor(libs), videos[..i])
    requires Tallied(fetcher, videos, outs, minChars, batchSize, writes, pauses)
    modifies fetcher
    ensures outs' == Outcomes(ResultFor(libs), videos[..i + 1])
    ensures Tallied(fetcher, videos, outs', minChars, batchSize, writes', pauses')
  {
    ghost var ranMethod2;
    var transcript;
    transcript, ranMethod2 := fetcher.GetTranscript(libs, videos[i].sources);
    assert transcript == ResultFor(libs)(videos[i]);
    OutcomesSnoc(ResultFor(libs), videos, i);
    CountsStep(outs, transcript, minChars);
    outs' := outs + [transcript];
    writes', pauses' := Record(fetcher, videos, i, outs, transcript, batchSize, minChars, writes, pauses);
  }

  /**
   * The rest of the pass, once `get_transcript` has returned `o` and updated
   * the counters: a short transcript is rejected (moved from the success to
   * the failure count, and the pause check is skipped); otherwise a found
   * transcript is written, and the loop pauses after a full batch that is
   * not the last item.
   */
  method Record(fetcher: TranscriptFetcherV2, videos: seq<Candidate>, i: nat, ghost outs: seq<Option<Tagged>>, o: Option<Tagged>,
    batchSize: int, minChars: int, writes: seq<(string, string)>, pauses: seq<nat>)
    returns (writes': seq<(string, string)>, pauses': seq<nat>)
    requires batchSize != 0 && i == |outs| < |videos|
    requires writes == Writes(videos, outs, minChars)
    requires pauses == Pauses(outs, minChars, |videos|, batchSize)
    requires fetcher.successCount == CountSome(outs + [o]) - RejectedCount(outs, minChars)
    requires fetcher.failCount == |outs| + 1 - CountSome(outs + [o]) + RejectedCount(outs, minChars)
    requires fetcher.method1Success == Method1Count(outs + [o])
    requires fetcher.method2Success == CountSome(outs + [o]) - Method1Count(outs + [o])
    modifies fetcher
    ensures Tallied(fetcher, videos, outs + [o], minChars, batchSize, writes', pauses')
  {
    WritesStep(videos, outs, o, minChars);
    PausesStep(outs, o, minChars, |videos|, batchSize);
    CountsStep(outs, o, minChars);
    writes', pauses' := writes, pauses;
    if o.Some? && |o.value.text| < minChars {
      fetcher.failCount := fetcher.failCount + 1;
      fetcher.successCount := fetcher.successCount - 1;
      return;
    }
    if o.Some? {
      writes' := writes + [(videos[i].videoId, o.value.text)];
    }
    if (i + 1) % batchSize == 0 && i + 1 < |videos| {
      pauses' := pauses + [i + 1];
    }
  }

  /**
   * `fetch_missing_transcripts(batch_size, min_chars)` over the candidate
   * videos: nothing is done when neither library is installed; otherwise
   * each candidate is fetched, short transcripts are rejected, the rest are
   * written, and the loop pauses between batches.
   */
  method FetchMissingTranscripts(libs: Libraries, videos: seq<Candidate>, batchSize: int, minChars: int)
    returns (report: MissingReport)
    requires batchSize != 0
    ensures !libs.transcriptApi && !libs.ytDlp ==> report == MissingReport(false, [], [], 0, 0, 0, 0)
    ensures libs.transcriptApi || libs.ytDlp ==>
      var outs := Outcomes(ResultFor(libs), videos);
      var found := CountSome(outs);
      var rejected := RejectedCount(outs, minChars);
      && report.completed
      && report.writes == Writes(videos, outs, minChars)
      && report.pauses == Pauses(outs, minChars, |videos|, batchSize)
      && report.successCount == found - rejected
      && report.failCount == |videos| - found + rejected
      && report.method1Success == Method1Count(outs)
      && report.method2Success == found - Method1Count(outs)
    ensures libs.transcriptApi || libs.ytDlp ==> report.successCount + report.failCount == |videos|
    ensures libs.transcriptApi || libs.ytDlp ==> |report.writes| == report.successCount
    ensures libs.transcriptApi || libs.ytDlp ==>
      report.method1Success + report.method2Success ==
        report.successCount + RejectedCount(Outcomes(ResultFor(libs), videos), minChars)
  {
    if !libs.transcriptApi && !libs.ytDlp {
      return MissingReport(false, [], [], 0, 0, 0, 0);
    }
    var fetcher := new TranscriptFetcherV2();
    var writes: seq<(string, string)> := [];
    var pauses: seq<nat> := [];
    ghost var outs: seq<Option<Tagged>> := [];
    var i := 0;
    while i < |videos|
      invariant 0 <= i <= |videos|
      invariant outs == Outcomes(ResultFor(libs), videos[..i])
      invariant Tallied(fetcher, videos, outs, minChars, batchSize, writes, pauses)
    {
      writes, pauses, outs := FetchOne(fetcher, libs, videos, i, batchSize, minChars, writes, pauses, outs);
      i := i + 1;
    }
    assert videos[..i] == videos;
    assert Tallied(fetcher, videos, Outcomes(ResultFor(libs), videos), minChars, batchSize, writes, pauses);
    WritesCount(videos, Outcomes(ResultFor(libs), videos), minChars);
    report := MissingReport(true, writes, pauses, fetcher.successCount, fetcher.failCount,
      fetcher.method1Success, fetcher.method2Success);
  }

  /**
   * Over a whole run, every transcript found is either written once or
   * rejected, so the writes number the found transcripts less the
   * rejected ones.
   */
  lemma BatchCounters(libs: Libraries, videos: seq<Candidate>, minChars: int)
    ensures var outs := Outcomes(ResultFor(libs), videos);
      var found := CountSome(outs);
      var rejected := RejectedCount(outs, minChars);
      && |Writes(videos, outs, minChars)| == found - rejected
      && rejected <= found
  {
    var outs := Outcomes(ResultFor(libs), videos);
    WritesCount(videos, outs, minChars);
  }

  /** Each accepted transcript is written once; rejected ones and misses are not. */
  lemma {:induction false} WritesCount(videos: seq<Candidate>, outs: seq<Option<Tagged>>, minChars: int)
    requires |outs| <= |videos|
    ensures |Writes(videos, outs, minChars)| == CountSome(outs) - RejectedCount(outs, minChars)
    ensures RejectedCount(outs, minChars) <= CountSome(outs)
  {
    if outs != [] {
      WritesCount(videos, outs[..|outs| - 1], minChars);
    }
  }

  /**
   * A pause follows item `k` exactly when `k` is a multiple of the batch
   * size, `k` is not the last item, and item `k` was not rejected; so no
   * pause ever follows the last item.
   */
  lemma {:induction false} PausesSpec(outs: seq<Option<Tagged>>, minChars: int, total: nat, batchSize: int)
    requires batchSize != 0
    ensures forall k :: k in Pauses(outs, minChars, total, batchSize) <==>
      1 <= k <= |outs| && k % batchSize == 0 && k < total && !Rejected(outs[k - 1], minChars)
    ensures total !in Pauses(outs, minChars, total, batchSize)
  {
    if outs != [] {
      var prefix := outs[..|outs| - 1];
      PausesSpec(prefix, minChars, total, batchSize);
      assert forall k :: 0 <= k < |prefix| ==> outs[k] == prefix[k];
    }
  }

  /**
   * With no rejection the pause rule depends only on the batch size and the
   * run length: five candidates in batches of two pause after items 2 and
   * 4, four candidates only after item 2, since no pause follows the last
   * item.
   */
  lemma PausesNoRejection(outs: seq<Option<Tagged>>, minChars: int)
    requires |outs| == 5
    requires forall k :: 0 <= k < |outs| ==> !Rejected(outs[k], minChars)
    ensures Pauses(outs, minChars, 5, 2) == [2, 4]
    ensures Pauses(outs[..4], minChars, 4, 2) == [2]
  {
    assert !Rejected(outs[1], minChars) && !Rejected(outs[3], minChars);
    assert outs[..2][..1] == outs[..1];
    assert outs[..3][..2] == outs[..2];
    assert outs[..4][..3] == outs[..3];
    assert outs[..5] == outs;
    assert outs[..2][1] == outs[1] && outs[..4][3] == outs[3];
    assert outs[..1][..0] == [];
    assert Pauses(outs[..1], minChars, 5, 2) == [];
    assert Pauses(outs[..1], minChars, 4, 2) == [];
    assert Pauses(outs[..2], minChars, 5, 2) == [2];
    assert Pauses(outs[..4], minChars, 5, 2) == [2, 4];
    assert Pauses(outs[..2], minChars, 4, 2) == [2];
    assert Pauses(outs[..3], minChars, 4, 2) == [2];
  }

  /**
   * Three candidates in batches of one: a pause follows item 1 and item 2
   * unless that item was rejected, and never follows the last item.
   */
  lemma PausesExample(outs: seq<Option<Tagged>>, minChars: int)
    requires |outs| == 3
    ensures Pauses(outs, minChars, 3, 1) ==
      (if Rejected(outs[0], minChars) then [] else [1]) + (if Rejected(outs[1], minChars) then [] else [2])
  {
    assert Pauses(outs[..0], minChars, 3, 1) == [];
    assert outs[..1][..0] == outs[..0];
    assert Pauses(outs[..1], minChars, 3, 1) == if Rejected(outs[0], minChars) then [] else [1];
    assert outs[..2][..1] == outs[..1];
    assert outs[..2][1] == outs[1];
    assert outs[..3] == outs;
    assert outs[..2] == outs[..|outs| - 1];
  }
}
