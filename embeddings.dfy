/**
 * The text preparation of `EmbeddingGenerator` in processors/embeddings.py:
 * `clean_text`, the sentence packing of `chunk_transcript_semantic`, the
 * weighted text of `combine_video_text`, and the per-video bookkeeping of
 * `process_videos`. The sentence-transformer model is an input: what
 * `create_embeddings_batch` returns for a list of texts.
 */
module Embeddings {
  import opened Options
  import opened PyStr
  import opened Lists

  // ---------------------------------------------------------------------------
  // clean_text
  // ---------------------------------------------------------------------------

  /** `clean_text` keeps at most this many characters. */
  const MaxCleanLength: nat := 5000

  /**
   * The regex class `\w` on `str`: letters, digits, numerals and `_`. The
   * ranges covered are ASCII, the Latin-1 letters and numerals, Latin
   * Extended-A and -B, and Latin Extended Additional (the Vietnamese letters).
   */
  predicate IsWordChar(c: char) {
    || ('a' <= c <= 'z') || ('A' <= c <= 'Z') || ('0' <= c <= '9') || c == '_'
    || c == '\U{AA}' || c == '\U{B2}' || c == '\U{B3}' || c == '\U{B5}' || c == '\U{B9}' || c == '\U{BA}'
    || ('\U{BC}' <= c <= '\U{BE}')
    || ('\U{C0}' <= c <= '\U{FF}' && c != '\U{D7}' && c != '\U{F7}')
    || ('\U{100}' <= c <= '\U{24F}')
    || ('\U{1E00}' <= c <= '\U{1EFF}')
  }

  /** The characters the class `[^\w\s\-.,!?]` does not match, so `clean_text` keeps them. */
  predicate Allowed(c: char) {
    IsWordChar(c) || IsSpace(c) || c == '-' || c == '.' || c == ',' || c == '!' || c == '?'
  }

  /** `re.sub(r'[^\w\s\-.,!?]', ' ', s)`: every character that is not allowed becomes a space. */
  function Scrub(s: string): (r: string)
    ensures |r| == |s|
    ensures AllChars(r, Allowed)
  {
    seq(|s|, i requires 0 <= i < |s| => if Allowed(s[i]) then s[i] else ' ')
  }

  /** A string of allowed characters is left as it is by the substitution. */
  lemma ScrubAllowed(s: string)
    requires AllChars(s, Allowed)
    ensures Scrub(s) == s
  {
  }

  /**
   * `clean_text(text)`: the substitution, the whitespace collapse and the
   * cut to 5000 characters. The empty string stands for both `""` and `None`.
   */
  function CleanText(text: string): string {
    if text == "" then ""
    else Take(Collapse(Scrub(text)), MaxCleanLength)
  }

  /**
   * The cleaned text has at most 5000 characters, holds only characters the
   * substitution keeps, has no whitespace other than single spaces, does
   * not start with one, and never has two in a row; an empty text gives "".
   */
  lemma CleanTextShape(text: string)
    ensures var r := CleanText(text);
      && (text == "" ==> r == "")
      && |r| <= MaxCleanLength
      && (forall i :: 0 <= i < |r| ==> Allowed(r[i]) && (IsSpace(r[i]) ==> r[i] == ' '))
      && (r != [] ==> r[0] != ' ')
      && (forall i :: 0 <= i < |r| - 1 && r[i] == ' ' ==> r[i + 1] != ' ')
  {
    if text != "" {
      var c := Collapse(Scrub(text));
      CollapseAllChars(Scrub(text), Allowed);
      var r := Take(c, MaxCleanLength);
      assert forall i :: 0 <= i < |r| ==> r[i] == c[i];
    }
  }

  /**
   * When the collapsed text fits in 5000 characters nothing is cut: the
   * cleaned text holds every word of the substituted text, in order.
   */
  lemma CleanTextFits(text: string)
    requires |Collapse(Scrub(text))| <= MaxCleanLength
    ensures Words(CleanText(text)) == Words(Scrub(text))
  {
    if text == "" {
      assert Scrub(text) == [];
    }
  }

  /**
   * Cleaning a cleaned text again changes nothing, unless the cut to 5000
   * characters left a space at the end (which the second collapse removes).
   */
  lemma CleanTextIdempotent(text: string)
    requires var r := CleanText(text); r == [] || r[|r| - 1] != ' '
    ensures CleanText(CleanText(text)) == CleanText(text)
  {
    var r := CleanText(text);
    if r != [] {
      CleanTextShape(text);
      assert Normalized(r);
      assert AllChars(r, Allowed);
      ScrubAllowed(r);
      NormalizedIsCollapsed(r);
    }
  }

  // ---------------------------------------------------------------------------
  // chunk_transcript_semantic
  // ---------------------------------------------------------------------------

  /** A character of the class `[.!?]`. */
  predicate IsTerminator(c: char) {
    c == '.' || c == '!' || c == '?'
  }

  /** The length of the run of non-terminators that starts `s`. */
  function SentenceLen(s: string): (n: nat)
    ensures n <= |s|
    ensures forall i :: 0 <= i < n ==> !IsTerminator(s[i])
    ensures n < |s| ==> IsTerminator(s[n])
  {
    if s == [] || IsTerminator(s[0]) then 0 else 1 + SentenceLen(s[1..])
  }

  /** The length of the run of terminators that starts `s`: one match of `[.!?]+`. */
  function TerminatorRun(s: string): (n: nat)
    ensures n <= |s|
    ensures forall i :: 0 <= i < n ==> IsTerminator(s[i])
    ensures n < |s| ==> !IsTerminator(s[n])
  {
    if s == [] || !IsTerminator(s[0]) then 0 else 1 + TerminatorRun(s[1..])
  }

  /** A string that holds no terminator. */
  predicate Unpunctuated(s: string) {
    forall i :: 0 <= i < |s| ==> !IsTerminator(s[i])
  }

  /**
   * `re.split(r'[.!?]+', s)`: the pieces between the runs of terminators,
   * in order, empty ones included (before a leading run, after a trailing one).
   */
  function SplitSentences(s: string): (parts: seq<string>)
    ensures |parts| >= 1
    ensures forall k :: 0 <= k < |parts| ==> Unpunctuated(parts[k])
    decreases |s|
  {
    var n := SentenceLen(s);
    if n == |s| then [s]
    else
      var m := n + TerminatorRun(s[n..]);
      [s[..n]] + SplitSentences(s[m..])
  }

  /** What a character keeps once the terminators are dropped. */
  function NonTerminator(c: char): string {
    if IsTerminator(c) then [] else [c]
  }

  /** A list of strings, concatenated. */
  function Concat(xs: seq<string>): string {
    FlatMap(xs, (x: string) => x)
  }

  /** Dropping the terminators from a string without any changes nothing. */
  lemma {:induction false} NonTerminatorsOfPlain(s: string)
    requires Unpunctuated(s)
    ensures FlatMap(s, NonTerminator) == s
    decreases |s|
  {
    if s != [] {
      var init := s[..|s| - 1];
      NonTerminatorsOfPlain(init);
      assert s == init + [s[|s| - 1]];
    }
  }

  /** Dropping the terminators from a run of them leaves nothing. */
  lemma {:induction false} NonTerminatorsOfRun(s: string)
    requires forall i :: 0 <= i < |s| ==> IsTerminator(s[i])
    ensures FlatMap(s, NonTerminator) == []
    decreases |s|
  {
    if s != [] {
      NonTerminatorsOfRun(s[..|s| - 1]);
    }
  }

  /** Concatenating a list that starts with `x` gives `x`, then the rest. */
  lemma ConcatCons(x: string, rest: seq<string>)
    ensures Concat([x] + rest) == x + Concat(rest)
  {
    FlatMapAppend([x], rest, (y: string) => y);
    FlatMapOne(x, (y: string) => y);
  }

  /** Dropping the terminators from a slice that holds only terminators leaves nothing. */
  lemma TerminatorSlice(s: string, n: nat, m: nat)
    requires n <= m <= |s|
    requires forall i :: n <= i < m ==> IsTerminator(s[i])
    ensures FlatMap(s[n..m], NonTerminator) == []
  {
    var run := s[n..m];
    forall i | 0 <= i < |run| ensures IsTerminator(run[i]) {
      assert run[i] == s[n + i];
    }
    NonTerminatorsOfRun(run);
  }

  /** A piece without terminators followed by a run of them: dropping the terminators keeps the piece. */
  lemma NonTerminatorsAfterRun(s: string, n: nat, m: nat)
    requires n <= m <= |s| && Unpunctuated(s[..n])
    requires forall i :: n <= i < m ==> IsTerminator(s[i])
    ensures FlatMap(s, NonTerminator) == s[..n] + FlatMap(s[m..], NonTerminator)
  {
    NonTerminatorsOfPlain(s[..n]);
    TerminatorSlice(s, n, m);
    FlatMapSkip(s, n, m, NonTerminator);
  }

  /** The pieces of the split, concatenated, are the string with its terminators dropped. */
  lemma {:induction false} SplitSentencesKeeps(s: string)
    ensures Concat(SplitSentences(s)) == FlatMap(s, NonTerminator)
    decreases |s|
  {
    var n := SentenceLen(s);
    if n == |s| {
      assert SplitSentences(s) == [s];
      FlatMapOne(s, (x: string) => x);
      NonTerminatorsOfPlain(s);
    } else {
      var m := n + TerminatorRun(s[n..]);
      var rest := SplitSentences(s[m..]);
      assert SplitSentences(s) == [s[..n]] + rest;
      SplitSentencesKeeps(s[m..]);
      ConcatCons(s[..n], rest);
      NonTerminatorsAfterRun(s, n, m);
    }
  }

  /** `len(sentence.split())` */
  function WordCount(s: string): nat {
    |Words(s)|
  }

  /** What a piece of the split contributes: its stripped form, unless that is empty. */
  function KeptSentence(piece: string): seq<string> {
    var s := Strip(piece);
    if s == [] then [] else [s]
  }

  /** The sentences `chunk_transcript_semantic` packs, in order. */
  function Sentences(transcript: string): seq<string> {
    FlatMap(SplitSentences(transcript), KeptSentence)
  }

  /** A sentence as the loop sees it: not empty, stripped, and free of terminators. */
  predicate IsSentence(s: string) {
    s != [] && Trimmed(s) && Unpunctuated(s)
  }

  /** Every sentence is non-empty, stripped and free of terminators, and counts at least one word. */
  lemma SentencesShape(transcript: string)
    ensures forall k :: 0 <= k < |Sentences(transcript)| ==> IsSentence(Sentences(transcript)[k])
    ensures forall k :: 0 <= k < |Sentences(transcript)| ==> WordCount(Sentences(transcript)[k]) >= 1
  {
    var parts := SplitSentences(transcript);
    forall k | 0 <= k < |parts| ensures forall j :: 0 <= j < |KeptSentence(parts[k])| ==> IsSentence(KeptSentence(parts[k])[j]) {
      var s := Strip(parts[k]);
      var lead := LeadSpace(parts[k]);
      assert forall i :: 0 <= i < |s| ==> s[i] == parts[k][lead + i];
    }
    FlatMapAll(parts, KeptSentence, IsSentence);
    forall k | 0 <= k < |Sentences(transcript)| ensures WordCount(Sentences(transcript)[k]) >= 1 {
      var s := Sentences(transcript)[k];
      assert IsSentence(s);
      assert Words(s) == [s[..WordLen(s)]] + Words(s[WordLen(s)..]);
    }
  }

  /** The loop state: the chunks closed so far (as sentence lists), `current_chunk` and `current_length`. */
  datatype Packing = Packing(closed: seq<seq<string>>, current: seq<string>, currentLength: int)

  /** One sentence of the loop: it starts a new chunk exactly when it would push the count past the budget. */
  function Step(p: Packing, sentence: string, maxChunkSize: int): Packing {
    var n := WordCount(sentence);
    if p.currentLength + n > maxChunkSize then
      Packing(if p.current != [] then p.closed + [p.current] else p.closed, [sentence], n)
    else
      Packing(p.closed, p.current + [sentence], p.currentLength + n)
  }

  /** The loop state after the given sentences. */
  function Pack(sentences: seq<string>, maxChunkSize: int): Packing
    decreases |sentences|
  {
    if sentences == [] then Packing([], [], 0)
    else Step(Pack(sentences[..|sentences| - 1], maxChunkSize), sentences[|sentences| - 1], maxChunkSize)
  }

  /** One more sentence is one more step. */
  lemma PackSnoc(sentences: seq<string>, s: string, maxChunkSize: int)
    ensures Pack(sentences + [s], maxChunkSize) == Step(Pack(sentences, maxChunkSize), s, maxChunkSize)
  {
    assert (sentences + [s])[..|sentences|] == sentences;
  }

  /** The chunks the loop ends with, as sentence lists: the closed ones, then the current one unless it is empty. */
  function Groups(sentences: seq<string>, maxChunkSize: int): seq<seq<string>> {
    var p := Pack(sentences, maxChunkSize);
    if p.current != [] then p.closed + [p.current] else p.closed
  }

  /** `' '.join(group)` as a one-element list. */
  function JoinedChunk(group: seq<string>): seq<string> {
    [JoinSpace(group)]
  }

  /** `' '.join(group)` for each group, in order. */
  function Texts(groups: seq<seq<string>>): seq<string> {
    FlatMap(groups, JoinedChunk)
  }

  /** What `chunk_transcript_semantic(transcript, max_chunk_size)` returns. */
  function ChunkTexts(transcript: string, maxChunkSize: int): seq<string> {
    Texts(Groups(Sentences(transcript), maxChunkSize))
  }

  /** The sum of the sentences' word counts: `current_length` for that chunk. */
  function TotalWords(group: seq<string>): nat
    decreases |group|
  {
    if group == [] then 0 else TotalWords(group[..|group| - 1]) + WordCount(group[|group| - 1])
  }

  /** All sentences of the groups, in order. */
  function Flatten(groups: seq<seq<string>>): seq<string> {
    FlatMap(groups, (g: seq<string>) => g)
  }

  /**
   * `g` may follow the groups `gs`: it is not empty, its first sentence is
   * not empty, it exceeds the budget only as a single sentence, and its
   * first sentence would have pushed the previous group past the budget.
   */
  predicate GreedyNext(gs: seq<seq<string>>, g: seq<string>, maxChunkSize: int) {
    && g != [] && g[0] != []
    && (TotalWords(g) > maxChunkSize ==> |g| == 1)
    && (gs != [] ==> TotalWords(gs[|gs| - 1]) + WordCount(g[0]) > maxChunkSize)
  }

  /** Every group may follow the ones before it. */
  predicate Greedy(gs: seq<seq<string>>, maxChunkSize: int) {
    forall k :: 0 <= k < |gs| ==> GreedyNext(gs[..k], gs[k], maxChunkSize)
  }

  lemma GreedySnoc(gs: seq<seq<string>>, g: seq<string>, maxChunkSize: int)
    requires Greedy(gs, maxChunkSize) && GreedyNext(gs, g, maxChunkSize)
    ensures Greedy(gs + [g], maxChunkSize)
  {
    var gs' := gs + [g];
    forall k | 0 <= k < |gs'| ensures GreedyNext(gs'[..k], gs'[k], maxChunkSize) {
      if k < |gs| {
        assert gs'[..k] == gs[..k];
      } else {
        assert gs'[..k] == gs;
      }
    }
  }

  /** What the loop keeps true of its state. */
  predicate PackingInvariant(p: Packing, maxChunkSize: int) {
    && p.currentLength == TotalWords(p.current)
    && (p.current == [] ==> p.closed == [])
    && Greedy(p.closed, maxChunkSize)
    && (p.current != [] ==> GreedyNext(p.closed, p.current, maxChunkSize))
  }

  /** Starting a new chunk with `s` keeps the invariant. */
  lemma StepOverflow(p: Packing, s: string, maxChunkSize: int)
    requires PackingInvariant(p, maxChunkSize) && s != []
    requires p.currentLength + WordCount(s) > maxChunkSize
    ensures PackingInvariant(Step(p, s, maxChunkSize), maxChunkSize)
  {
    var q := Step(p, s, maxChunkSize);
    assert [s][..0] == [];
    assert TotalWords([s]) == WordCount(s);
    if p.current != [] {
      GreedySnoc(p.closed, p.current, maxChunkSize);
      assert q.closed == p.closed + [p.current];
      assert GreedyNext(q.closed, q.current, maxChunkSize);
    }
  }

  /** Adding `s` to the current chunk keeps the invariant. */
  lemma StepFits(p: Packing, s: string, maxChunkSize: int)
    requires PackingInvariant(p, maxChunkSize) && s != []
    requires p.currentLength + WordCount(s) <= maxChunkSize
    ensures PackingInvariant(Step(p, s, maxChunkSize), maxChunkSize)
  {
    var g := p.current + [s];
    assert g[..|g| - 1] == p.current;
    assert TotalWords(g) == p.currentLength + WordCount(s);
    if p.current == [] {
      assert g == [s];
    } else {
      assert g[0] == p.current[0];
    }
  }

  /** The loop keeps its invariant over any list of non-empty sentences. */
  lemma {:induction false} PackInvariant(sentences: seq<string>, maxChunkSize: int)
    requires forall k :: 0 <= k < |sentences| ==> sentences[k] != []
    ensures PackingInvariant(Pack(sentences, maxChunkSize), maxChunkSize)
    decreases |sentences|
  {
    if sentences != [] {
      var init, s := sentences[..|sentences| - 1], sentences[|sentences| - 1];
      PackInvariant(init, maxChunkSize);
      var p := Pack(init, maxChunkSize);
      if p.currentLength + WordCount(s) > maxChunkSize {
        StepOverflow(p, s, maxChunkSize);
      } else {
        StepFits(p, s, maxChunkSize);
      }
    }
  }

  /** The closed chunks and the current one hold exactly the sentences seen so far, in order. */
  lemma {:induction false} PackKeeps(sentences: seq<string>, maxChunkSize: int)
    ensures var p := Pack(sentences, maxChunkSize); Flatten(p.closed) + p.current == sentences
    decreases |sentences|
  {
    if sentences != [] {
      var init, s := sentences[..|sentences| - 1], sentences[|sentences| - 1];
      PackKeeps(init, maxChunkSize);
      var p := Pack(init, maxChunkSize);
      if p.currentLength + WordCount(s) > maxChunkSize && p.current != [] {
        FlatMapSnoc(p.closed, p.current, (g: seq<string>) => g);
      }
      LastSplit(sentences);
    }
  }

  /**
   * The chunks hold exactly the sentences, in order; each chunk is
   * non-empty, exceeds the budget only as a single sentence, and a chunk
   * ends only where the next sentence would have pushed it past the budget.
   */
  lemma GroupsSpec(transcript: string, maxChunkSize: int)
    ensures Flatten(Groups(Sentences(transcript), maxChunkSize)) == Sentences(transcript)
    ensures Greedy(Groups(Sentences(transcript), maxChunkSize), maxChunkSize)
  {
    var sentences := Sentences(transcript);
    SentencesShape(transcript);
    PackInvariant(sentences, maxChunkSize);
    PackKeeps(sentences, maxChunkSize);
    var p := Pack(sentences, maxChunkSize);
    if p.current != [] {
      GreedySnoc(p.closed, p.current, maxChunkSize);
      FlatMapSnoc(p.closed, p.current, (g: seq<string>) => g);
    }
  }

  /** Joining a list whose first string is not empty gives a string that is not empty. */
  lemma JoinNonEmpty(sep: string, xs: seq<string>)
    requires xs != [] && xs[0] != []
    ensures Join(sep, xs) != []
  {
  }

  /** Every chunk `chunk_transcript_semantic` returns is a non-empty string. */
  lemma ChunksNonEmpty(transcript: string, maxChunkSize: int)
    ensures forall k :: 0 <= k < |ChunkTexts(transcript, maxChunkSize)| ==> ChunkTexts(transcript, maxChunkSize)[k] != []
  {
    var groups := Groups(Sentences(transcript), maxChunkSize);
    GroupsSpec(transcript, maxChunkSize);
    forall k | 0 <= k < |groups| ensures JoinSpace(groups[k]) != [] {
      assert GreedyNext(groups[..k], groups[k], maxChunkSize);
      JoinNonEmpty(" ", groups[k]);
    }
    FlatMapAll(groups, JoinedChunk, (c: string) => c != []);
  }

  /**
   * The body of the loop for a non-empty sentence: close the current chunk
   * and start a new one when the sentence would overflow it, otherwise add
   * the sentence to it.
   */
  method AddSentence(chunks: seq<string>, currentChunk: seq<string>, currentLength: int, sentence: string,
    maxChunkSize: int, ghost closed: seq<seq<string>>)
    returns (chunks': seq<string>, currentChunk': seq<string>, currentLength': int, ghost closed': seq<seq<string>>)
    requires chunks == Texts(closed)
    ensures Packing(closed', currentChunk', currentLength') == Step(Packing(closed, currentChunk, currentLength), sentence, maxChunkSize)
    ensures chunks' == Texts(closed')
  {
    chunks', closed' := chunks, closed;
    var sentenceLength := |Words(sentence)|;
    if currentLength + sentenceLength > maxChunkSize {
      if currentChunk != [] {
        FlatMapSnoc(closed, currentChunk, JoinedChunk);
        chunks' := chunks + [JoinSpace(currentChunk)];
        closed' := closed + [currentChunk];
      }
      currentChunk' := [sentence];
      currentLength' := sentenceLength;
    } else {
      currentChunk' := currentChunk + [sentence];
      currentLength' := currentLength + sentenceLength;
    }
  }

  /**
   * `chunk_transcript_semantic(transcript, max_chunk_size)`: the loop over
   * the split pieces, skipping empty ones, closing the current chunk when
   * the next sentence would overflow it.
   */
  method ChunkTranscriptSemantic(transcript: string, maxChunkSize: int) returns (chunks: seq<string>)
    ensures chunks == ChunkTexts(transcript, maxChunkSize)
  {
    var pieces := SplitSentences(transcript);
    chunks := [];
    var currentChunk: seq<string> := [];
    var currentLength := 0;
    ghost var closed: seq<seq<string>> := [];
    for i := 0 to |pieces|
      invariant Packing(closed, currentChunk, currentLength) == Pack(FlatMap(pieces[..i], KeptSentence), maxChunkSize)
      invariant chunks == Texts(closed)
    {
      ghost var seen := FlatMap(pieces[..i], KeptSentence);
      FlatMapPrefix(pieces, i, KeptSentence);
      var sentence := Strip(pieces[i]);
      if sentence == [] {
        assert FlatMap(pieces[..i + 1], KeptSentence) == seen;
        continue;
      }
      assert FlatMap(pieces[..i + 1], KeptSentence) == seen + [sentence];
      PackSnoc(seen, sentence, maxChunkSize);
      ghost var next := Step(Packing(closed, currentChunk, currentLength), sentence, maxChunkSize);
      assert Pack(FlatMap(pieces[..i + 1], KeptSentence), maxChunkSize) == next;
      chunks, currentChunk, currentLength, closed := AddSentence(chunks, currentChunk, currentLength, sentence, maxChunkSize, closed);
    }
    assert pieces[..|pieces|] == pieces;
    if currentChunk != [] {
      FlatMapSnoc(closed, currentChunk, JoinedChunk);
      chunks := chunks + [JoinSpace(currentChunk)];
    }
  }

  // ---------------------------------------------------------------------------
  // combine_video_text
  // ---------------------------------------------------------------------------

  /**
   * The fields of a video dict that `combine_video_text` reads. `""` stands
   * for a missing or `None` field (every use is behind a truthiness test);
   * `tags == None` stands for a value that is not a list.
   */
  datatype VideoFields = VideoFields(
    title: string,
    description: string,
    transcript: string,
    tags: Option<seq<string>>,
    channelName: string)

  /** A transcript shorter than this is left out of the text. */
  const MinTranscriptChars: nat := 100

  /** `max_transcript_length`: a longer transcript is cut to three pieces. */
  const MaxTranscriptChars: nat := 8000

  /** `n` copies of `x`: `[x] * n`. */
  function Repeat(x: string, n: nat): seq<string> {
    seq(n, _ => x)
  }

  /** `xs[:n]` for a list. */
  function TakeList(xs: seq<string>, n: nat): seq<string> {
    if n < |xs| then xs[..n] else xs
  }

  /**
   * The transcript text used: the transcript itself, or, when it is longer
   * than 8000 characters, its head, a middle piece and its tail, 2666
   * characters each, joined by spaces.
   */
  function TranscriptExcerpt(t: string): string {
    if |t| > MaxTranscriptChars then
      var chunkSize := MaxTranscriptChars / 3;
      var middleStart := |t| / 2 - chunkSize / 2;
      t[..chunkSize] + " " + t[middleStart..middleStart + chunkSize] + " " + t[|t| - chunkSize..]
    else t
  }

  /**
   * A long transcript gives exactly 8000 characters: its first 2666, a
   * space, the 2666 starting at `len // 2 - 1333`, a space, and its last
   * 2666. A transcript of at most 8000 characters is used whole.
   */
  lemma TranscriptExcerptSpec(t: string)
    ensures |t| <= MaxTranscriptChars ==> TranscriptExcerpt(t) == t
    ensures |t| > MaxTranscriptChars ==>
      var r := TranscriptExcerpt(t);
      var mid := |t| / 2 - 1333;
      && 0 <= mid && mid + 2666 <= |t|
      && |r| == 8000
      && r[..2666] == t[..2666] && r[2666] == ' '
      && r[2667..5333] == t[mid..mid + 2666] && r[5333] == ' '
      && r[5334..] == t[|t| - 2666..]
  {
    if |t| > MaxTranscriptChars {
      var mid := |t| / 2 - 1333;
      var head, middle, tail := t[..2666], t[mid..mid + 2666], t[|t| - 2666..];
      var r := TranscriptExcerpt(t);
      assert r == head + " " + middle + " " + tail;
      assert r[..2666] == head;
      assert r[2667..5333] == middle;
      assert r[5334..] == tail;
    }
  }

  /** Step 1 of `combined_parts`: the transcript excerpt, weight 5, for a transcript of at least 100 characters. */
  function TranscriptParts(v: VideoFields): seq<string> {
    if |v.transcript| >= MinTranscriptChars then Repeat(TranscriptExcerpt(v.transcript), 5) else []
  }

  /** Step 2: the title, weight 3. */
  function TitleParts(v: VideoFields): seq<string> {
    if v.title != "" then Repeat(v.title, 3) else []
  }

  /** Step 3: the first 2000 characters of the description, weight 2. */
  function DescriptionParts(v: VideoFields): seq<string> {
    if v.description != "" then Repeat(Take(v.description, 2000), 2) else []
  }

  /** `' '.join(tags[:15])` */
  function TagsText(v: VideoFields): string {
    if v.tags.Some? then JoinSpace(TakeList(v.tags.value, 15)) else ""
  }

  /** Step 4: the first 15 tags joined by spaces, weight 2, for a non-empty list. */
  function TagParts(v: VideoFields): seq<string> {
    if v.tags.Some? && v.tags.value != [] then Repeat(TagsText(v), 2) else []
  }

  /** Step 5: the channel name, weight 1. */
  function ChannelParts(v: VideoFields): seq<string> {
    if v.channelName != "" then [v.channelName] else []
  }

  /** `combined_parts` before the fallback. */
  function WeightedParts(v: VideoFields): seq<string> {
    TranscriptParts(v) + TitleParts(v) + DescriptionParts(v) + TagParts(v) + ChannelParts(v)
  }

  /** What `combine_video_text(video_data)` returns. */
  function CombinedText(v: VideoFields): string {
    CleanText(JoinSpace(WeightedParts(v)))
  }

  /**
   * The parts come in a fixed order with fixed weights: the transcript
   * excerpt five times (only for a transcript of at least 100 characters),
   * the title three times, the first 2000 characters of the description
   * twice, the first 15 tags space-joined twice (only for a non-empty list),
   * and the channel name once; an absent field adds nothing.
   */
  lemma WeightedPartsLayout(v: VideoFields)
    ensures var parts := WeightedParts(v);
      var a := if |v.transcript| >= MinTranscriptChars then 5 else 0;
      var b := a + (if v.title != "" then 3 else 0);
      var c := b + (if v.description != "" then 2 else 0);
      var d := c + (if v.tags.Some? && v.tags.value != [] then 2 else 0);
      var e := d + (if v.channelName != "" then 1 else 0);
      && |parts| == e
      && (forall k :: 0 <= k < a ==> parts[k] == TranscriptExcerpt(v.transcript))
      && (forall k :: a <= k < b ==> parts[k] == v.title)
      && (forall k :: b <= k < c ==> parts[k] == Take(v.description, 2000))
      && (forall k :: c <= k < d ==> parts[k] == TagsText(v))
      && (forall k :: d <= k < e ==> parts[k] == v.channelName)
  {
    var t, ti, de, ta, ch := TranscriptParts(v), TitleParts(v), DescriptionParts(v), TagParts(v), ChannelParts(v);
    assert |t| == if |v.transcript| >= MinTranscriptChars then 5 else 0;
    assert |ti| == if v.title != "" then 3 else 0;
    assert |de| == if v.description != "" then 2 else 0;
    assert |ta| == if v.tags.Some? && v.tags.value != [] then 2 else 0;
    assert |ch| == if v.channelName != "" then 1 else 0;
    FiveBlocks(t, ti, de, ta, ch, TranscriptExcerpt(v.transcript), v.title, Take(v.description, 2000),
      TagsText(v), v.channelName);
  }

  /** The combined text is at most 5000 characters, and a transcript shorter than 100 characters plays no part in it. */
  lemma CombinedTextSpec(v: VideoFields)
    ensures |CombinedText(v)| <= MaxCleanLength
    ensures |v.transcript| < MinTranscriptChars ==> CombinedText(v) == CombinedText(v.(transcript := ""))
  {
    CleanTextShape(JoinSpace(WeightedParts(v)));
  }

  /**
   * The fallback for a video without a transcript never changes anything:
   * a non-empty title always reaches `combined_parts`, so `combined_parts`
   * can only be empty when the title is empty, and then the fallback is
   * empty as well.
   */
  lemma FallbackInert(v: VideoFields)
    ensures v.title != "" ==> WeightedParts(v) != []
  {
    if v.title != "" {
      assert |TitleParts(v)| == 3;
    }
  }

  /**
   * `combine_video_text(video_data)`: `combined_parts` built with
   * `extend`/`append`, the fallback, the join and `clean_text`.
   */
  method CombineVideoText(v: VideoFields) returns (text: string)
    ensures text == CombinedText(v)
  {
    var parts: seq<string> := [];
    if v.transcript != "" && |v.transcript| >= MinTranscriptChars {
      var transcriptText := TranscriptExcerpt(v.transcript);
      parts := parts + Repeat(transcriptText, 5);
    }
    assert parts == TranscriptParts(v);
    if v.title != "" {
      parts := parts + Repeat(v.title, 3);
    }
    assert parts == TranscriptParts(v) + TitleParts(v);
    if v.description != "" {
      parts := parts + Repeat(Take(v.description, 2000), 2);
    }
    assert parts == TranscriptParts(v) + TitleParts(v) + DescriptionParts(v);
    if v.tags.Some? && v.tags.value != [] {
      var tagsText := JoinSpace(TakeList(v.tags.value, 15));
      parts := parts + Repeat(tagsText, 2);
    }
    assert parts == TranscriptParts(v) + TitleParts(v) + DescriptionParts(v) + TagParts(v);
    if v.channelName != "" {
      parts := parts + [v.channelName];
    }
    assert parts == WeightedParts(v);
    FallbackInert(v);
    if v.transcript == "" && parts == [] {
      parts := if v.title != "" then [v.title, v.title, v.title, v.title, v.title] else [];
    }
    text := CleanText(JoinSpace(parts));
  }

  // ---------------------------------------------------------------------------
  // process_videos
  // ---------------------------------------------------------------------------

  /** An embedding vector; the model only copies them. */
  type Vector = seq<real>

  /** `len(desc) > 300`: the summary is cut there. */
  const SummaryLength: nat := 300

  /** `desc[:300] + '...' if len(desc) > 300 else desc` */
  function SummaryOf(description: string): (r: string)
    ensures |r| <= SummaryLength + 3
    ensures |description| <= SummaryLength ==> r == description
    ensures |description| > SummaryLength ==> |r| == SummaryLength + 3 && r[..SummaryLength] == description[..SummaryLength]
  {
    if |description| > SummaryLength then description[..SummaryLength] + "..." else description
  }

  /** `not video.get('summary')`: no summary, a `None` one or an empty one. */
  predicate NoSummary(summary: Option<string>) {
    summary.None? || summary.value == ""
  }

  /**
   * A video dict. `fields` are the keys `combine_video_text` reads, which
   * `process_videos` never changes; `None` stands for a missing key.
   */
  class VideoRecord {
    const fields: VideoFields
    var summary: Option<string>
    var embedding: Option<Vector>
    var fullText: Option<string>

    constructor (fields: VideoFields, summary: Option<string>)
      ensures this.fields == fields && this.summary == summary
      ensures embedding.None? && fullText.None?
    {
      this.fields := fields;
      this.summary := summary;
      embedding := None;
      fullText := None;
    }

    /**
     * One step of the zip in `process_videos` for a video whose embedding
     * was created: the embedding and the text are stored, and a summary is
     * made from the description when the video had none.
     */
    method Attach(e: Vector, text: string)
      modifies this
      ensures embedding == Some(e) && fullText == Some(text)
      ensures summary == if NoSummary(old(summary)) then Some(SummaryOf(fields.description)) else old(summary)
    {
      embedding := Some(e);
      fullText := Some(text);
      if NoSummary(summary) {
        var desc := fields.description;
        summary := Some(if |desc| > SummaryLength then desc[..SummaryLength] + "..." else desc);
      }
    }
  }

  /** The combined text of each video, in order: `texts` in `process_videos`. */
  function VideoTexts(videos: seq<VideoRecord>): seq<string> {
    Map(videos, (v: VideoRecord) => CombinedText(v.fields))
  }

  /** The loop building `texts`. */
  method CombineAll(videos: seq<VideoRecord>) returns (texts: seq<string>)
    ensures texts == VideoTexts(videos)
  {
    texts := [];
    for i := 0 to |videos|
      invariant texts == VideoTexts(videos[..i])
    {
      var combinedText := CombineVideoText(videos[i].fields);
      MapPrefix(videos, i, (v: VideoRecord) => CombinedText(v.fields));
      texts := texts + [combinedText];
    }
    assert videos[..|videos|] == videos;
  }

  /** `len(zip(videos_data, embeddings, texts))` when every video has a text. */
  function ZipLength(videos: seq<VideoRecord>, embeddings: seq<Option<Vector>>): (n: nat)
    ensures n <= |videos| && n <= |embeddings|
    ensures n == |videos| || n == |embeddings|
  {
    if |embeddings| < |videos| then |embeddings| else |videos|
  }

  /**
   * The zip loop of `process_videos`: a video with an embedding gets it,
   * its text, and a summary from its description if it had none; the
   * others are counted as failures and left as they were. Every video the
   * zip reaches is returned.
   */
  method AttachAll(videos: seq<VideoRecord>, embeddings: seq<Option<Vector>>, texts: seq<string>)
    returns (results: seq<VideoRecord>, successCount: nat, failCount: nat)
    requires |texts| == |videos|
    requires forall i, j :: 0 <= i < j < |videos| ==> videos[i] != videos[j]
    modifies set v | v in videos
    ensures var n := ZipLength(videos, embeddings);
      && results == videos[..n]
      && successCount == CountSome(embeddings[..n])
      && successCount + failCount == n
      && (forall i :: 0 <= i < n && embeddings[i].Some? ==>
            && videos[i].embedding == embeddings[i]
            && videos[i].fullText == Some(texts[i])
            && videos[i].summary ==
                 (if NoSummary(old(videos[i].summary)) then Some(SummaryOf(videos[i].fields.description))
                  else old(videos[i].summary)))
      && (forall i :: 0 <= i < |videos| && (n <= i || embeddings[i].None?) ==>
            && videos[i].embedding == old(videos[i].embedding)
            && videos[i].fullText == old(videos[i].fullText)
            && videos[i].summary == old(videos[i].summary))
  {
    var n := ZipLength(videos, embeddings);
    results := [];
    successCount := 0;
    failCount := 0;
    for i := 0 to n
      invariant results == videos[..i]
      invariant successCount == CountSome(embeddings[..i]) && successCount + failCount == i
      invariant forall j :: 0 <= j < i && embeddings[j].Some? ==>
        && videos[j].embedding == embeddings[j]
        && videos[j].fullText == Some(texts[j])
        && videos[j].summary ==
             (if NoSummary(old(videos[j].summary)) then Some(SummaryOf(videos[j].fields.description))
              else old(videos[j].summary))
      invariant forall j :: 0 <= j < |videos| && (i <= j || embeddings[j].None?) ==>
        && videos[j].embedding == old(videos[j].embedding)
        && videos[j].fullText == old(videos[j].fullText)
        && videos[j].summary == old(videos[j].summary)
    {
      var video, embedding, text := videos[i], embeddings[i], texts[i];
      assert embeddings[..i + 1] == embeddings[..i] + [embedding];
      assert forall j :: 0 <= j < |videos| && j != i ==> videos[j] != video;
      if embedding.Some? {
        video.Attach(embedding.value, text);
        successCount := successCount + 1;
      } else {
        failCount := failCount + 1;
      }
      results := results + [video];
    }
  }

  /**
   * `process_videos(videos_data)`: the texts are combined, `encode` (the
   * model's `create_embeddings_batch`) turns them into embeddings, and the
   * zip of videos, embeddings and texts is walked by `AttachAll`; a video
   * with an embedding keeps its own combined text in `fullText`.
   */
  method ProcessVideos(videos: seq<VideoRecord>, encode: seq<string> -> seq<Option<Vector>>)
    returns (results: seq<VideoRecord>, successCount: nat, failCount: nat)
    requires forall i, j :: 0 <= i < j < |videos| ==> videos[i] != videos[j]
    modifies set v | v in videos
    ensures var texts := VideoTexts(videos);
      var embeddings := encode(texts);
      var n := ZipLength(videos, embeddings);
      && results == videos[..n]
      && successCount == CountSome(embeddings[..n])
      && successCount + failCount == n
      && (forall i :: 0 <= i < n && embeddings[i].Some? ==>
            && videos[i].embedding == embeddings[i]
            && videos[i].fullText == Some(texts[i])
            && videos[i].summary ==
                 (if NoSummary(old(videos[i].summary)) then Some(SummaryOf(videos[i].fields.description))
                  else old(videos[i].summary)))
      && (forall i :: 0 <= i < |videos| && (n <= i || embeddings[i].None?) ==>
            && videos[i].embedding == old(videos[i].embedding)
            && videos[i].fullText == old(videos[i].fullText)
            && videos[i].summary == old(videos[i].summary))
  {
    var texts := CombineAll(videos);
    var embeddings := encode(texts);
    results, successCount, failCount := AttachAll(videos, embeddings, texts);
  }
}
