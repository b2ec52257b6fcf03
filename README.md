# Transcript acquisition and embedding-text preparation, modelled in Dafny

This project models two parts of a YouTube video recommendation system.

**Transcript acquisition.** There are two script versions.
- `scripts/fetch_transcripts_advanced.py` (`AdvancedTranscriptFetcher`) tries four fetch methods in a fixed order, retrying each one:
  - the watch page's caption tracks;
  - the timed-text track list;
  - the transcript library;
  - JSON embedded in the watch page.
- `scripts/fetch_missing_transcripts.py` (`TranscriptFetcherV2`) runs two stages:
  - youtube-transcript-api: a manual English track, else a generated one, else a translation into English;
  - yt-dlp subtitles.

Each version has a batch loop that writes every transcript it finds and pauses between batches of videos.

**Embedding-text preparation.** This is `processors/embeddings.py` (`EmbeddingGenerator`):
- `clean_text`;
- the sentence packing of `chunk_transcript_semantic`;
- the weighted field concatenation of `combine_video_text`;
- the per-video bookkeeping of `process_videos`.

Whatever the network, the two transcript libraries, the XML and JSON parsers or the sentence-transformer model return is an input to the model. These inputs are:
- track lists;
- element texts;
- JSON trees;
- subtitle bodies;
- an attempt-by-attempt oracle for `get_transcript`;
- the list of embeddings the model produces.

The database update becomes a list of `(video id, transcript)` writes. The batch pauses become the list of item counts after which the loop sleeps.

## Files

| file | module | what it holds |
|---|---|---|
| `pystr.dfy` | `Options`, `PyStr` | `Option` and the count of present results; Python `str` primitives: `isspace`, `strip`, `split()`, `join`, the whitespace collapse `' '.join(s.split())`, `startswith`, `in`, `isdigit`, `lower`, `replace`, slicing, `split('\n')` |
| `lists.dfy` | `Lists` | flat-map and map over sequences, with their append and prefix laws |
| `selection.dfy` | `Selection` | first/last index satisfying a test; the "first preferred candidate, else the last candidate" rule of the track-selection loops |
| `advanced_parsers.dfy` | `AdvancedParsers` | `_parse_xml_transcript` (tag removal, segment cleaning, the join) and `_find_transcript_in_json` over a `Json` tree |
| `advanced_fetcher.dfy` | `AdvancedFetcher` | the four fetch methods, `get_transcript` with retries and counters (class `AdvancedTranscriptFetcher`), the batch loop with `method_stats` and its pause rule |
| `missing_fetcher.dfy` | `MissingFetcher` | `_parse_subtitle_text`, the method-1 tiers, the method-2 order, the two-stage `get_transcript` (class `TranscriptFetcherV2`), the batch loop with the `min_chars` rejection |
| `embeddings.dfy` | `Embeddings` | `clean_text`, `chunk_transcript_semantic`, `combine_video_text`, `process_videos` (class `VideoRecord` for a video dict) |

## Where the code differs from its evidently intended behaviour (the model follows the code)

- **Retries.** `get_transcript`'s docstring promises to "try all methods with retries" (scripts/fetch_transcripts_advanced.py:309-311). The pause in its `except` branch suggests that retries are meant for errors, and that a method that finds nothing should give way to the next one. In the code, every method catches its own exceptions and returns `None`. So `get_transcript` calls each method `max_retries` times whenever it yields nothing, and the `time.sleep(1)` in its `except` branch is never reached (scripts/fetch_transcripts_advanced.py:320-331). `AdvancedFetcher.Calls` and `CallsPerMethod` model exactly this.
- **Overwrites.** `update_video_transcript` runs an unconditional `UPDATE … SET transcript_text` (scripts/fetch_transcripts_advanced.py:336-351, scripts/fetch_missing_transcripts.py:212-225). A stored transcript can therefore be replaced by a shorter one. Both models' `Writes` list every accepted transcript; there is no comparison with what is stored.

## Model

| member | source | states |
|---|---|---|
| `AdvancedFetcher.AtLeast` | scripts/fetch_transcripts_advanced.py:84-88 | the floor `text and len(text) >= n` passes a text through exactly when it is present, non-empty and at least `n` long, and gives `None` otherwise |
| `AdvancedFetcher.SelectCaptionUrl` | scripts/fetch_transcripts_advanced.py:65-73 | the loop over `caption_tracks` (overwriting `caption_url` for each English track, breaking at the first non-`asr` one) returns exactly the `baseUrl` of the track `Selection.Preferred` picks |
| `Selection.Preferred` | scripts/fetch_transcripts_advanced.py:66-70 | the chosen element is always a candidate (English); if some candidate is also preferred (manual), the first such is chosen; otherwise the last candidate is chosen; none exactly when there is no candidate |
| `AdvancedFetcher.Method1Result` | scripts/fetch_transcripts_advanced.py:35-92 | method 1 returns text only when it has at least 100 characters |
| `AdvancedFetcher.Method1InternalApi` | scripts/fetch_transcripts_advanced.py:35-92 | the method's steps (no tracks, no URL, failed caption request, parsed text below 100 characters all give `None`) compute exactly `Method1Result` |
| `AdvancedFetcher.SelectLangCode` | scripts/fetch_transcripts_advanced.py:110-118 | the loop over `(lang_code, name)` pairs returns the code of the first English pair whose lower-cased name lacks "auto", else of the last English pair, else `None` (via `Selection.Preferred`) |
| `AdvancedFetcher.Method2Result` | scripts/fetch_transcripts_advanced.py:94-137 | method 2 returns text only when it has at least 100 characters |
| `AdvancedFetcher.Method2TimedText` | scripts/fetch_transcripts_advanced.py:94-137 | the method's steps compute exactly `Method2Result` |
| `AdvancedFetcher.Method3Library` | scripts/fetch_transcripts_advanced.py:139-166 | a result has at least 100 characters and is the space-join of the entries of the manual English transcript if there is one, otherwise of the generated one |
| `AdvancedFetcher.ManualTranscriptFirst` | scripts/fetch_transcripts_advanced.py:149-153 | when a manual English transcript exists, the generated one has no influence on the result |
| `AdvancedFetcher.Method5Result` | scripts/fetch_transcripts_advanced.py:225-259 | method 5 returns text only when it is longer than 100 characters |
| `AdvancedFetcher.Method5ExtractFromJson` | scripts/fetch_transcripts_advanced.py:238-255 | the loop over the embedded JSON blocks returns the search result of the first block that parses and holds a transcript, else `None` |
| `AdvancedFetcher.MethodOutcome` | scripts/fetch_transcripts_advanced.py:312-318 | whatever any of the four methods returns has at least 100 characters |
| `AdvancedFetcher.Search` | scripts/fetch_transcripts_advanced.py:320-327 | a found attempt belongs to one of the four methods and turned up a truthy text |
| `AdvancedFetcher.SearchSpec` | scripts/fetch_transcripts_advanced.py:320-327 | the attempt found is the first in (method, attempt) order that turns up text; when none is found, no attempt turns up text |
| `AdvancedFetcher.ResultShape` | scripts/fetch_transcripts_advanced.py:320-335 | `get_transcript` returns a text of at least 100 characters paired with one of the four method names |
| `AdvancedFetcher.CallsPerMethod` | scripts/fetch_transcripts_advanced.py:320-323 | no method is called more than `max_retries` times |
| `AdvancedFetcher.CallsOnlyAfterFailures` | scripts/fetch_transcripts_advanced.py:320-327 | every call is made only after every call before it, in (method, attempt) order, returned a falsy value; so a later method runs only after all attempts of the earlier ones failed |
| `AdvancedFetcher.CallsEndAtHit` | scripts/fetch_transcripts_advanced.py:325-327 | the calls stop at the first hit: the last call made is the successful attempt |
| `AdvancedFetcher.AdvancedTranscriptFetcher.constructor` | scripts/fetch_transcripts_advanced.py:25-27 | both counters start at zero |
| `AdvancedFetcher.AdvancedTranscriptFetcher.CallMethod` | scripts/fetch_transcripts_advanced.py:312-323 | calling method `m` returns exactly that method's outcome for what the network shows |
| `AdvancedFetcher.AdvancedTranscriptFetcher.TryMethod` | scripts/fetch_transcripts_advanced.py:321-327 | the retry loop for one method either finds the text of the overall first successful attempt, or hands the search on to the next method; the calls it makes extend the call sequence in order |
| `AdvancedFetcher.AdvancedTranscriptFetcher.GetTranscript` | scripts/fetch_transcripts_advanced.py:308-335 | returns the first truthy result with its method's name (`Result`), makes exactly the calls `Calls` describes; exactly one of `success_count`/`fail_count` goes up by one |
| `AdvancedFetcher.Outcomes` | scripts/fetch_transcripts_advanced.py:391-399 | one `get_transcript` outcome per video, in order |
| `AdvancedFetcher.Writes` | scripts/fetch_transcripts_advanced.py:401-409 | at most one database update per video; `WritesStep` says which |
| `Options.CountSome` | scripts/fetch_transcripts_advanced.py:325-327 | the number of results that hold a value (the success count of both batch loops and of `process_videos`) is at most the number of results |
| `AdvancedFetcher.OutcomesNamed` | scripts/fetch_transcripts_advanced.py:399-403 | every success of the batch loop is credited to one of the four method names |
| `AdvancedFetcher.SuccessesByAddUp` | scripts/fetch_transcripts_advanced.py:401-403 | the per-method counts of `method_stats` add up to the total number of successes |
| `AdvancedFetcher.PausesUpToSpec` | scripts/fetch_transcripts_advanced.py:413-419 | a pause follows item `k` exactly when `1 <= k <= n` and `k % batch_size == 0`, the last item included; pauses come in increasing order |
| `AdvancedFetcher.PausesExample` | scripts/fetch_transcripts_advanced.py:414 | five videos in batches of two pause after items 2 and 4; four videos pause after 2 and 4, the last item included |
| `AdvancedFetcher.WritesStep` | scripts/fetch_transcripts_advanced.py:401-409 | one more video adds its `(id, transcript)` update exactly when a transcript was found |
| `Options.CountSomeSnoc` | scripts/fetch_transcripts_advanced.py:325-327 | one more result adds one to the success count exactly when it holds a value |
| `AdvancedFetcher.StatsStep` | scripts/fetch_transcripts_advanced.py:403 | `method_stats[method] = method_stats.get(method, 0) + 1` keeps every method's count equal to its number of successes, with keys only among the method names |
| `AdvancedFetcher.FetchOne` | scripts/fetch_transcripts_advanced.py:391-419 | one pass of the batch loop extends the outcomes by that video's and keeps writes, pauses, `method_stats` and both counters in step with them |
| `AdvancedFetcher.Record` | scripts/fetch_transcripts_advanced.py:401-419 | after `get_transcript`, a found transcript is written and credited to its method, and the pause check runs for every item |
| `AdvancedFetcher.FetchAll` | scripts/fetch_transcripts_advanced.py:391-419 | after the loop, writes, pauses, `method_stats` and counters are those of all the videos' outcomes |
| `AdvancedFetcher.FetchTranscriptsAdvanced` | scripts/fetch_transcripts_advanced.py:354-436 | the run writes exactly the found transcripts in video order, pauses after every multiple of the batch size, `method_stats` counts each method's successes, `success_count` is the number of successes and `success_count + fail_count` the number of videos |
| `AdvancedParsers.StripTags` | scripts/fetch_transcripts_advanced.py:273 | tag removal only deletes characters: each remaining character comes from the input |
| `AdvancedParsers.StripTagsTagFree` | scripts/fetch_transcripts_advanced.py:273 | after `re.sub(r'<[^>]+>', '', text)` no match of the pattern is left |
| `AdvancedParsers.StripTagsOfTagFree` | scripts/fetch_transcripts_advanced.py:273 | a text without tags is left unchanged, so removing tags twice is the same as once |
| `AdvancedParsers.CleanSegment` | scripts/fetch_transcripts_advanced.py:272-275 | a cleaned segment has no tags, no newlines and no whitespace at either end |
| `AdvancedParsers.SegmentsAppend` | scripts/fetch_transcripts_advanced.py:269-275 | segments follow document order: those of a concatenation are the concatenated segments |
| `AdvancedParsers.SegmentsOfOne` | scripts/fetch_transcripts_advanced.py:270-275 | an element with no text or an empty one contributes nothing; any other contributes exactly its cleaned text |
| `AdvancedParsers.SegmentsAreClean` | scripts/fetch_transcripts_advanced.py:269-275 | every segment is clean and there is at most one per element |
| `AdvancedParsers.ParseXmlTranscript` | scripts/fetch_transcripts_advanced.py:261-281 | `None` for a document that does not parse; otherwise the cleaned segments of the non-empty elements, joined by single spaces |
| `AdvancedParsers.KeyIndex` | scripts/fetch_transcripts_advanced.py:291 | `key in obj`: the position found holds the key and no earlier member does; no position means no member has the key |
| `AdvancedParsers.OwnHit` | scripts/fetch_transcripts_advanced.py:290-292 | a hit among the dict's own keys is longer than 100 characters; no hit means no key tried holds a string that long |
| `AdvancedParsers.OwnHitSound` | scripts/fetch_transcripts_advanced.py:290-292 | an own hit is the string held under one of the keys tried |
| `AdvancedParsers.OwnHitComplete` | scripts/fetch_transcripts_advanced.py:290-292 | a dict holding a string longer than 100 characters under a transcript key always has an own hit |
| `AdvancedParsers.OwnHitFirst` | scripts/fetch_transcripts_advanced.py:290-292 | the keys are tried in the fixed order: the first one holding a qualifying string gives the result |
| `AdvancedParsers.FindTranscript` | scripts/fetch_transcripts_advanced.py:283-306 | nothing is returned when `depth > max_depth`; anything returned is longer than 100 characters |
| `AdvancedParsers.FindInMembers` | scripts/fetch_transcripts_advanced.py:295-298 | anything the loop over the dict's values returns is longer than 100 characters |
| `AdvancedParsers.FindInItems` | scripts/fetch_transcripts_advanced.py:300-304 | anything the loop over the list's items returns is longer than 100 characters |
| `AdvancedParsers.OwnKeyWins` | scripts/fetch_transcripts_advanced.py:288-298 | within one dict, the five keys are checked before any child: the first qualifying key's string is the result, whatever the children hold |
| `AdvancedParsers.FirstMemberHitWins` | scripts/fetch_transcripts_advanced.py:295-298 | dict values are searched in dict order and the first value whose search succeeds gives the result |
| `AdvancedParsers.FirstItemHitWins` | scripts/fetch_transcripts_advanced.py:300-304 | list items are searched in list order and the first item whose search succeeds gives the result |
| `AdvancedParsers.NoMemberHit` | scripts/fetch_transcripts_advanced.py:295-298 | when no value's search succeeds, neither does the loop |
| `AdvancedParsers.FindComplete` | scripts/fetch_transcripts_advanced.py:283-306 | a string longer than 100 characters held under a transcript key of a dict at most `max_depth - depth` levels down is always found (an earlier one in search order may be returned instead) |
| `AdvancedParsers.ArrayComplete` | scripts/fetch_transcripts_advanced.py:300-304 | the same completeness for a list |
| `AdvancedParsers.ObjectComplete` | scripts/fetch_transcripts_advanced.py:288-298 | the same completeness for a dict |
| `AdvancedParsers.ObjectStep` | scripts/fetch_transcripts_advanced.py:288-298 | one level of the search in a dict: its own keys first, then its values one level deeper |
| `AdvancedParsers.ChildComplete` | scripts/fetch_transcripts_advanced.py:295-298 | a dict value holding such a string within the remaining depth makes the loop over the values succeed |
| `AdvancedParsers.MembersComplete` | scripts/fetch_transcripts_advanced.py:295-298 | the loop over values succeeds when some remaining value holds such a string within the depth |
| `AdvancedParsers.ItemsComplete` | scripts/fetch_transcripts_advanced.py:301-304 | the loop over items succeeds when some remaining item holds such a string within the depth |
| `AdvancedParsers.FindSound` | scripts/fetch_transcripts_advanced.py:283-306 | whatever the search returns is the value of one of the keys transcript/captions/subtitles/text/content of a dict at most `max_depth - depth` levels below |
| `AdvancedParsers.ObjectSound` | scripts/fetch_transcripts_advanced.py:288-298 | the same soundness for a dict |
| `AdvancedParsers.ArraySound` | scripts/fetch_transcripts_advanced.py:300-304 | the same soundness for a list |
| `AdvancedParsers.MembersSound` | scripts/fetch_transcripts_advanced.py:295-298 | a result of the loop over values comes from one of the values searched |
| `AdvancedParsers.ItemsSound` | scripts/fetch_transcripts_advanced.py:301-304 | a result of the loop over items comes from one of the items searched |
| `MissingFetcher.Kept` | scripts/fetch_missing_transcripts.py:168-178 | one subtitle line contributes at most one text line |
| `MissingFetcher.KeptLinesPass` | scripts/fetch_missing_transcripts.py:169-177 | every kept line is stripped, non-empty, longer than 2, has no "-->", is not all digits, and does not start with "WEBVTT", "NOTE" or "<" |
| `MissingFetcher.KeptLinesAppend` | scripts/fetch_missing_transcripts.py:168-178 | the filter keeps lines in order and treats each line on its own |
| `MissingFetcher.KeptLinesOne` | scripts/fetch_missing_transcripts.py:169-178 | a line is kept, in its stripped form, exactly when that form passes the test |
| `MissingFetcher.SubtitleTextSpec` | scripts/fetch_missing_transcripts.py:180-182 | the parsed text has no leading or trailing whitespace and no consecutive spaces, re-collapsing it changes nothing, and its words are exactly those of the kept lines, in order |
| `MissingFetcher.ParseSubtitleText` | scripts/fetch_missing_transcripts.py:163-182 | `_parse_subtitle_text` computes `SubtitleText`: the kept lines joined by spaces and collapsed |
| `MissingFetcher.CollectTextLines` | scripts/fetch_missing_transcripts.py:168-178 | the loop appends exactly the kept lines, in order |
| `MissingFetcher.TierOrder` | scripts/fetch_missing_transcripts.py:62-85 | a manual English track gives "manual"; otherwise a generated one gives "auto-generated"; otherwise the first of vi, es, fr, de, ja, ko, zh, hi, ar that can be found and translated gives "translated-<lang>"; nothing exactly when all of these fail |
| `MissingFetcher.Method1Spec` | scripts/fetch_missing_transcripts.py:48-108 | method 1 returns exactly the newline-replaced, collapsed text of the chosen tier's transcript with the tier's name, when it has at least 50 characters; a text that long is always returned |
| `MissingFetcher.CollapsedIsStripped` | scripts/fetch_missing_transcripts.py:95-100 | the final `strip()` changes nothing on a collapsed text |
| `MissingFetcher.Method2Order` | scripts/fetch_missing_transcripts.py:110-161 | manual `en` subtitles are tried before automatic `en` captions; "yt-dlp-manual" exactly when the manual ones are accepted; "yt-dlp-auto" only when the manual ones were skipped or too short; every result has at least 50 characters |
| `MissingFetcher.CombineSpec` | scripts/fetch_missing_transcripts.py:190-210 | method 2's result is used only when method 1's is not good; the tag says which method produced the text; a result has at least 50 characters; none exactly when neither is good |
| `MissingFetcher.TwoStageSpec` | scripts/fetch_missing_transcripts.py:184-210 | with the actual methods: method 2's result counts only when method 1 yields nothing, the result is tagged "method1-<m>" or "method2-<m>" after the method that produced it, and has at least 50 characters |
| `MissingFetcher.TranscriptFetcherV2.constructor` | scripts/fetch_missing_transcripts.py:42-46 | all four counters start at zero |
| `MissingFetcher.TranscriptFetcherV2.Method1` | scripts/fetch_missing_transcripts.py:48-108 | the tier walk with the translation loop and its `break` computes exactly `Method1Result` |
| `MissingFetcher.TranscriptFetcherV2.Method2` | scripts/fetch_missing_transcripts.py:110-161 | the manual-then-automatic steps compute exactly `Method2Result` |
| `MissingFetcher.TranscriptFetcherV2.GetTranscript` | scripts/fetch_missing_transcripts.py:184-210 | `Method2` is called exactly when method 1 gives no text of at least 50 characters, i.e. when `Method1Result` is `None`; the result is `TwoStage`; exactly one of `success_count`/`fail_count` goes up, and on success exactly one of `method1_success`/`method2_success`, according to the method that produced the text |
| `MissingFetcher.Outcomes` | scripts/fetch_missing_transcripts.py:282-293 | one `get_transcript` result per candidate, in order |
| `MissingFetcher.Writes` | scripts/fetch_missing_transcripts.py:295-305 | no transcript shorter than `min_chars` is ever written, and there is at most one write per candidate |
| `MissingFetcher.Method1Count` | scripts/fetch_missing_transcripts.py:194 | at most one method-1 success per candidate |
| `MissingFetcher.RejectedCount` | scripts/fetch_missing_transcripts.py:297-301 | at most one rejection per candidate |
| `MissingFetcher.WritesStep` | scripts/fetch_missing_transcripts.py:295-305 | one more candidate adds its write exactly when a transcript was found and not rejected |
| `MissingFetcher.PausesStep` | scripts/fetch_missing_transcripts.py:297-318 | one more candidate adds a pause exactly when it was not rejected, its count is a multiple of the batch size and it is not the last item |
| `MissingFetcher.CountsStep` | scripts/fetch_missing_transcripts.py:193-209 | one more outcome adds one to the found, rejected and method-1 counts exactly when it is of that kind |
| `MissingFetcher.FetchOne` | scripts/fetch_missing_transcripts.py:282-318 | one pass of the batch loop extends the outcomes by that candidate's and keeps writes, pauses and all four counters in step |
| `MissingFetcher.Record` | scripts/fetch_missing_transcripts.py:295-318 | a transcript shorter than `min_chars` moves one count from `success_count` to `fail_count` and skips the write and the pause check; otherwise a found transcript is written and the pause rule applies |
| `MissingFetcher.FetchMissingTranscripts` | scripts/fetch_missing_transcripts.py:229-353 | with neither library installed nothing happens and the run reports failure; otherwise writes, pauses and counters are those of all the candidates' outcomes, with `success_count = found - rejected` and `fail_count = candidates - found + rejected`; so `success_count + fail_count` is the number of candidates, there is one write per success, and `method1_success + method2_success` exceeds `success_count` by the number of rejected transcripts |
| `MissingFetcher.BatchCounters` | scripts/fetch_missing_transcripts.py:297-301 | over a whole run, the number of writes is the number of transcripts found less the number rejected, and no more are rejected than found |
| `MissingFetcher.WritesCount` | scripts/fetch_missing_transcripts.py:295-305 | the number of writes is the number found minus the number rejected |
| `MissingFetcher.PausesSpec` | scripts/fetch_missing_transcripts.py:297-318 | a pause follows item `k` exactly when `k % batch_size == 0`, `k` is not the last item and item `k` was not rejected; never after the last item |
| `MissingFetcher.PausesExample` | scripts/fetch_missing_transcripts.py:312 | three candidates in batches of one pause after items 1 and 2, each unless that item was rejected, never after item 3 |
| `MissingFetcher.PausesNoRejection` | scripts/fetch_missing_transcripts.py:312 | with no rejection, five candidates in batches of two pause after items 2 and 4, and four candidates only after item 2 (the advanced loop pauses after item 4 there too) |
| `PyStr.Strip` | scripts/fetch_missing_transcripts.py:169 | `strip()` gives the middle slice of the string left once the leading and trailing whitespace runs are removed, with no whitespace at either end |
| `PyStr.Words` | processors/embeddings.py:75 | `split()` gives non-empty pieces without whitespace |
| `PyStr.Collapse` | processors/embeddings.py:49 | `' '.join(s.split())` is whitespace-normalised and keeps the words of `s` in order |
| `PyStr.CollapseIdempotent` | scripts/fetch_missing_transcripts.py:181 | collapsing twice is the same as once |
| `PyStr.WordsOfJoinSpace` | scripts/fetch_missing_transcripts.py:180-181 | joining with single spaces neither merges nor splits words |
| `PyStr.JoinSplitOn` | scripts/fetch_missing_transcripts.py:165 | joining the pieces of `split('\n')` with `'\n'` gives the content back |
| `PyStr.Lower` | scripts/fetch_transcripts_advanced.py:114 | `lower()` maps each ASCII capital to its small letter and leaves every other character |
| `PyStr.ReplaceChar` | scripts/fetch_transcripts_advanced.py:274 | `replace('\n', ' ')` replaces exactly the newlines, position by position |
| `PyStr.Take` | processors/embeddings.py:52-53 | `text[:n]` is the prefix of length `min(n, len)` |
| `Selection.FirstWhere` | scripts/fetch_missing_transcripts.py:74-81 | the first index passing the test, with no earlier one passing; none exactly when no index passes |
| `Embeddings.Scrub` | processors/embeddings.py:46 | the substitution keeps the length and leaves only word characters, whitespace and `-.,!?` |
| `Embeddings.ScrubAllowed` | processors/embeddings.py:46 | a text of allowed characters is left unchanged |
| `Embeddings.CleanTextShape` | processors/embeddings.py:41-55 | an empty input gives ""; the result has at most 5000 characters, only allowed characters, no whitespace other than single spaces, no leading space and never two spaces in a row |
| `Embeddings.CleanTextFits` | processors/embeddings.py:46-53 | when the collapsed text fits in 5000 characters, the result holds every word of the substituted text, in order |
| `Embeddings.CleanTextIdempotent` | processors/embeddings.py:41-55 | cleaning a cleaned text changes nothing, unless the cut at 5000 left a trailing space |
| `Embeddings.SentenceLen` | processors/embeddings.py:64 | measures the run before the first `.`, `!` or `?` |
| `Embeddings.TerminatorRun` | processors/embeddings.py:64 | measures one maximal match of `[.!?]+` |
| `Embeddings.SplitSentences` | processors/embeddings.py:64 | `re.split(r'[.!?]+', s)` gives at least one piece, and no piece holds a terminator |
| `Embeddings.SplitSentencesKeeps` | processors/embeddings.py:64 | the pieces, concatenated, are the transcript with its terminators dropped |
| `Embeddings.SentencesShape` | processors/embeddings.py:70-75 | every sentence the loop packs is non-empty, stripped, free of terminators and counts at least one word |
| `Embeddings.StepOverflow` | processors/embeddings.py:77-81 | closing the chunk and starting a new one with a sentence that would overflow keeps the packing invariant |
| `Embeddings.StepFits` | processors/embeddings.py:82-84 | adding a sentence that fits keeps the packing invariant |
| `Embeddings.PackInvariant` | processors/embeddings.py:70-84 | through the whole loop, `current_length` is the word count of `current_chunk` and every chunk follows the greedy rule |
| `Embeddings.PackKeeps` | processors/embeddings.py:70-84 | the closed chunks and `current_chunk` hold exactly the sentences seen, in order |
| `Embeddings.GroupsSpec` | processors/embeddings.py:57-89 | the chunks hold exactly the sentences, in order; each chunk is non-empty, exceeds the budget only as a single sentence, and ends only where the next sentence would have pushed it past the budget |
| `Embeddings.ChunksNonEmpty` | processors/embeddings.py:78-89 | every chunk returned is a non-empty string |
| `Embeddings.AddSentence` | processors/embeddings.py:75-84 | the loop body performs one packing step for a sentence and keeps `chunks` equal to the joined closed chunks |
| `Embeddings.ChunkTranscriptSemantic` | processors/embeddings.py:57-89 | `chunk_transcript_semantic` returns exactly `ChunkTexts`: the space-joined sentence groups that `GroupsSpec` describes |
| `Embeddings.TranscriptExcerptSpec` | processors/embeddings.py:131-140 | a transcript of at most 8000 characters is used whole; a longer one gives exactly 8000: its first 2666 characters, a space, the 2666 from `len // 2 - 1333`, a space, its last 2666 |
| `Embeddings.WeightedPartsLayout` | processors/embeddings.py:127-161 | the parts come in fixed order and weights: the transcript excerpt ×5 (only at 100 characters or more), the title ×3, `description[:2000]` ×2, the first 15 tags space-joined ×2 (only for a non-empty list), the channel name ×1; an absent field adds nothing |
| `Embeddings.CombinedTextSpec` | processors/embeddings.py:127-168 | the combined text has at most 5000 characters, and a transcript shorter than 100 characters plays no part in it |
| `Embeddings.FallbackInert` | processors/embeddings.py:146-165 | a non-empty title always reaches `combined_parts`, so the fallback can only fire with an empty title and then adds nothing |
| `Embeddings.CombineVideoText` | processors/embeddings.py:113-168 | building `combined_parts` with `extend`/`append`, the fallback, the join and `clean_text` give exactly `CombinedText` |
| `Embeddings.SummaryOf` | processors/embeddings.py:279 | the summary is the description itself up to 300 characters; a longer description gives its first 300 characters followed by "...", 303 characters in all |
| `Embeddings.VideoRecord.Attach` | processors/embeddings.py:273-280 | a video with an embedding gets it and its text; a summary is made from its description only when it had none or an empty one |
| `Embeddings.CombineAll` | processors/embeddings.py:258-261 | `texts` holds each video's combined text, in order |
| `Embeddings.ZipLength` | processors/embeddings.py:272 | the zip reaches as many items as the shorter of the videos and the embeddings |
| `Embeddings.AttachAll` | processors/embeddings.py:268-287 | every video the zip reaches is returned; each with an embedding gets it, its own text and the summary rule; all others are left unchanged; `success_count` counts the embeddings and `success_count + fail_count` the zipped items |
| `Embeddings.ProcessVideos` | processors/embeddings.py:237-289 | the same, given that the texts are the videos' combined texts and the embeddings are what the model returns for them |

## Left out

- HTTP and HTML: `session.get`/`requests.get`, status codes, and the regex extraction of `ytInitialPlayerResponse`/`ytInitialData` and of the timed-text `lang_code`/`name` pairs are not modelled. Their results are inputs: `None` for a failed request or a missing match, otherwise the extracted tracks, pairs or JSON blocks.
- `xml.etree` and `json.loads` are not modelled. Their results are inputs: `XmlPayload` (malformed, or the `.//text` element texts in document order) and a `Json` tree whose objects list their members in dict order. Members with repeated keys are not considered, since `json.loads` never yields them.
- youtube-transcript-api and yt-dlp: what they return is an input (`LibraryListing`, `TranscriptList`, `YdlInfo`). Any exception that ends a method is modelled by its `None` result, and a lookup that raises is an absent entry.
- The Selenium method (`method4_selenium_crawler`) is not modelled. It is commented out of the method list, so `get_transcript` never calls it.
- The database is not modelled. `update_video_transcript` is the list of writes; its `False` on a database error changes only a log line. The SQL candidate selection, `limit`, the early return for an empty candidate list and the final statistics query are also out.
- `time.sleep`, elapsed time, progress and summary logging are not modelled. In `process_videos` this includes the `with_transcript` statistics, which only feed log lines.
- The sentence-transformer model is not modelled: `create_embedding`, `create_embeddings_batch`, float32 casts and normalisation. The embeddings list is an input (`encode`), and vectors are sequences of reals that are only copied.
- `total_requests` is never initialised in `EmbeddingGenerator.__init__` (processors/embeddings.py:16-29, incremented at 193 and 223). As written, the batch call would fall back to one call per text, and each of those would return `None`. The model covers this case too, since `encode` may return any list, including all `None`. `get_stats` is out.
- `process_videos_with_chunking` is not modelled: it averages chunk embeddings with numpy, and only its call of `chunk_transcript_semantic` is modelled.
- `batch_size == 0` is excluded by `requires batchSize != 0`. There the source raises `ZeroDivisionError` on the first pause check. For other values the test `(i + 1) % batch_size == 0` is the same under Python's floored and Dafny's Euclidean remainder.
- A missing or `None` string field is modelled as `""`. In `combine_video_text` every use is behind a truthiness test or a `.get(…, '')` default. In `process_videos`, `len(None)` of an explicit `None` description would raise.
- A NULL `title` is not modelled. Both batch loops run `video['title'][:70]` outside any `try` (scripts/fetch_transcripts_advanced.py:393, scripts/fetch_missing_transcripts.py:284), so a NULL title raises `TypeError` and aborts the whole run. The batch models' candidates carry no title; they assume every title is a string.
- `tags` that is not a list is modelled as `None`.
- `isdigit` and `lower` are modelled for ASCII only. The regex class `\w` is approximated by ASCII letters, digits and `_`, the Latin-1 letters and numerals, Latin Extended-A/B and Latin Extended Additional (the Vietnamese letters); other scripts' letters count as non-word characters here.
- `MissingFetcher.Method1Result` leaves out the final `strip()`; `CollapsedIsStripped` proves it changes nothing, and `TranscriptFetcherV2.Method1` applies it.
- `Embeddings.ProcessVideos` and `Embeddings.AttachAll` require the videos to be distinct objects. The same dict listed twice (aliasing) is not modelled.
- Concurrency, worker pools, rate limiting and cancellation are not modelled; they do not exist in this code.
