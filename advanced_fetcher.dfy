/**
 * `AdvancedTranscriptFetcher` and the batch loop `fetch_transcripts_advanced`
 * of scripts/fetch_transcripts_advanced.py. What a method sees of the network
 * on one attempt is a `Snapshot`: the caption-track list of the watch page,
 * the timed-text track list, the library's track lookup, the JSON documents
 * embedded in the page, and the XML payload served for each caption URL.
 */
module AdvancedFetcher {
  import opened Options
  import opened PyStr
  import opened Selection
  import opened AdvancedParsers

  /** Every method returns text only when it has at least this many characters. */
  const MinTranscriptLength: nat := 100

  /** The depth limit of the embedded-JSON search (`max_depth=10`). */
  const MaxJsonDepth: int := 10

  /** `text and len(text) >= n`, applied to an optional text. */
  function AtLeast(text: Option<string>, n: nat): (r: Option<string>)
    ensures r.Some? <==> text.Some? && text.value != "" && |text.value| >= n
    ensures r.Some? ==> r == text
  {
    if text.Some? && text.value != "" && |text.value| >= n then text else None
  }

  /** What `_parse_xml_transcript` returns for a payload. */
  function XmlText(payload: XmlPayload): Option<string> {
    if payload.Malformed? then None else Some(JoinSpace(Segments(payload.texts)))
  }

  // ---------------------------------------------------------------------------
  // Method 1: caption tracks of the watch page
  // ---------------------------------------------------------------------------

  /**
   * One entry of `captionTracks`: its `languageCode` ("" when absent), its
   * `kind` and its `baseUrl`.
   */
  datatype CaptionTrack = CaptionTrack(languageCode: string, kind: Option<string>, baseUrl: Option<string>)

  predicate IsEnglishTrack(t: CaptionTrack) {
    StartsWith(t.languageCode, "en")
  }

  /** `track.get('kind') != 'asr'`: not automatic speech recognition. */
  predicate IsManualTrack(t: CaptionTrack) {
    t.kind != Some("asr")
  }

  /** The `baseUrl` of the track the selection loop settles on. */
  function ChosenCaptionUrl(tracks: seq<CaptionTrack>): Option<string> {
    match Preferred(tracks, IsEnglishTrack, IsManualTrack)
    case None => None
    case Some(i) => tracks[i].baseUrl
  }

  /**
   * The loop over `caption_tracks`: every English track overwrites
   * `caption_url`, and the first manual English one ends the loop.
   */
  method SelectCaptionUrl(tracks: seq<CaptionTrack>) returns (url: Option<string>)
    ensures url == ChosenCaptionUrl(tracks)
  {
    url := None;
    var i := 0;
    while i < |tracks|
      invariant 0 <= i <= |tracks|
      invariant forall j :: 0 <= j < i ==> !(IsEnglishTrack(tracks[j]) && IsManualTrack(tracks[j]))
      invariant url == ChosenCaptionUrl(tracks[..i])
    {
      var track := tracks[i];
      if IsEnglishTrack(track) {
        url := track.baseUrl;
        if IsManualTrack(track) {
          PreferredHit(tracks, i, IsEnglishTrack, IsManualTrack);
          return;
        }
      }
      PreferredStep(tracks, i, IsEnglishTrack, IsManualTrack);
      i := i + 1;
    }
    assert tracks[..i] == tracks;
  }

  /**
   * What method 1 returns: `None` when the watch page gave no track list
   * (`watchPage == None`), when no usable caption URL is chosen, when the
   * caption request fails, or when the parsed text is shorter than 100.
   */
  function Method1Result(watchPage: Option<seq<CaptionTrack>>, captionXml: string -> Option<XmlPayload>): (r: Option<string>)
    ensures r.Some? ==> |r.value| >= MinTranscriptLength
  {
    if watchPage.None? || watchPage.value == [] then None
    else
      var url := ChosenCaptionUrl(watchPage.value);
      if url.None? || url.value == "" then None
      else match captionXml(url.value)
        case None => None
        case Some(payload) => AtLeast(XmlText(payload), MinTranscriptLength)
  }

  /** `method1_youtube_internal_api`. */
  method Method1InternalApi(watchPage: Option<seq<CaptionTrack>>, captionXml: string -> Option<XmlPayload>) returns (r: Option<string>)
    ensures r == Method1Result(watchPage, captionXml)
  {
    if watchPage.None? || watchPage.value == [] {
      return None;
    }
    var url := SelectCaptionUrl(watchPage.value);
    if url.None? || url.value == "" {
      return None;
    }
    var payload := captionXml(url.value);
    if payload.None? {
      return None;
    }
    var text := ParseXmlTranscript(payload.value);
    if text.Some? && text.value != "" && |text.value| >= MinTranscriptLength {
      return text;
    }
    return None;
  }

  // ---------------------------------------------------------------------------
  // Method 2: the timed-text track list
  // ---------------------------------------------------------------------------

  /** One `(lang_code, name)` pair of the timed-text track list. */
  datatype LanguageEntry = LanguageEntry(code: string, name: string)

  predicate IsEnglishEntry(e: LanguageEntry) {
    StartsWith(e.code, "en") || Contains(e.name, "English")
  }

  /** `'auto' not in name.lower()` */
  predicate IsManualEntry(e: LanguageEntry) {
    !Contains(Lower(e.name), "auto")
  }

  function ChosenLangCode(entries: seq<LanguageEntry>): Option<string> {
    match Preferred(entries, IsEnglishEntry, IsManualEntry)
    case None => None
    case Some(i) => Some(entries[i].code)
  }

  /**
   * The loop over the track list: every English entry overwrites
   * `lang_code`, and the first one without "auto" in its name ends the loop.
   */
  method SelectLangCode(entries: seq<LanguageEntry>) returns (code: Option<string>)
    ensures code == ChosenLangCode(entries)
  {
    code := None;
    var i := 0;
    while i < |entries|
      invariant 0 <= i <= |entries|
      invariant forall j :: 0 <= j < i ==> !(IsEnglishEntry(entries[j]) && IsManualEntry(entries[j]))
      invariant code == ChosenLangCode(entries[..i])
    {
      var entry := entries[i];
      if IsEnglishEntry(entry) {
        code := Some(entry.code);
        if IsManualEntry(entry) {
          PreferredHit(entries, i, IsEnglishEntry, IsManualEntry);
          return;
        }
      }
      PreferredStep(entries, i, IsEnglishEntry, IsManualEntry);
      i := i + 1;
    }
    assert entries[..i] == entries;
  }

  /**
   * What method 2 returns: `None` when the track list request fails, when
   * no English entry is found, when the transcript request fails, or when
   * the parsed text is shorter than 100.
   */
  function Method2Result(trackList: Option<seq<LanguageEntry>>, timedTextXml: string -> Option<XmlPayload>): (r: Option<string>)
    ensures r.Some? ==> |r.value| >= MinTranscriptLength
  {
    if trackList.None? then None
    else
      var code := ChosenLangCode(trackList.value);
      if code.None? || code.value == "" then None
      else match timedTextXml(code.value)
        case None => None
        case Some(payload) => AtLeast(XmlText(payload), MinTranscriptLength)
  }

  /** `method2_timedtext_api`; the transcript is requested by language code. */
  method Method2TimedText(trackList: Option<seq<LanguageEntry>>, timedTextXml: string -> Option<XmlPayload>) returns (r: Option<string>)
    ensures r == Method2Result(trackList, timedTextXml)
  {
    if trackList.None? {
      return None;
    }
    var code := SelectLangCode(trackList.value);
    if code.None? || code.value == "" {
      return None;
    }
    var payload := timedTextXml(code.value);
    if payload.None? {
      return None;
    }
    var text := ParseXmlTranscript(payload.value);
    if text.Some? && text.value != "" && |text.value| >= MinTranscriptLength {
      return text;
    }
    return None;
  }

  // ---------------------------------------------------------------------------
  // Method 3: the transcript library
  // ---------------------------------------------------------------------------

  /**
   * The outcome of one `find_*_transcript(['en'])` lookup: no such
   * transcript, or one whose `fetch()` either failed (`None`) or gave the
   * entries' texts.
   */
  datatype LibraryTrack = NotFound | Found(entries: Option<seq<string>>)

  /** What `list_transcripts` offers for English. */
  datatype LibraryListing = LibraryListing(manualEn: LibraryTrack, generatedEn: LibraryTrack)

  /**
   * `method3_youtube_transcript_api`: the manual English transcript if
   * there is one, else the generated one; its entries joined by spaces and
   * kept only at 100 characters or more. `listing == None` is a failed
   * `list_transcripts`.
   */
  function Method3Library(listing: Option<LibraryListing>): (r: Option<string>)
    ensures r.Some? ==> |r.value| >= MinTranscriptLength
    ensures r.Some? ==> (listing.Some? &&
      var chosen := if listing.value.manualEn.Found? then listing.value.manualEn else listing.value.generatedEn;
      chosen.Found? && chosen.entries.Some? && r.value == JoinSpace(chosen.entries.value))
  {
    if listing.None? then None
    else
      var chosen := if listing.value.manualEn.Found? then listing.value.manualEn else listing.value.generatedEn;
      if chosen.NotFound? || chosen.entries.None? then None
      else AtLeast(Some(JoinSpace(chosen.entries.value)), MinTranscriptLength)
  }

  /** When a manual English transcript exists, the generated one plays no part. */
  lemma ManualTranscriptFirst(manual: LibraryTrack, g1: LibraryTrack, g2: LibraryTrack)
    requires manual.Found?
    ensures Method3Library(Some(LibraryListing(manual, g1))) == Method3Library(Some(LibraryListing(manual, g2)))
  {
  }

  // ---------------------------------------------------------------------------
  // Method 5: JSON embedded in the watch page
  // ---------------------------------------------------------------------------

  /** A `ytInitialData` block that parsed and holds a transcript-like string. */
  predicate HasTranscript(doc: Option<Json>) {
    doc.Some? && FindTranscript(doc.value, 0, MaxJsonDepth).Some?
  }

  /**
   * What method 5 returns: the search result of the first embedded block
   * that parses and holds a transcript, or `None`. `page == None` is a
   * failed page request; a `None` block is one `json.loads` rejected.
   */
  function Method5Result(page: Option<seq<Option<Json>>>): (r: Option<string>)
    ensures r.Some? ==> |r.value| > MinTranscriptLength
  {
    if page.None? then None
    else match FirstWhere(page.value, HasTranscript)
      case None => None
      case Some(i) => FindTranscript(page.value[i].value, 0, MaxJsonDepth)
  }

  /** `method5_extract_from_json`: the loop over the embedded blocks. */
  method Method5ExtractFromJson(page: Option<seq<Option<Json>>>) returns (r: Option<string>)
    ensures r == Method5Result(page)
  {
    if page.None? {
      return None;
    }
    var docs := page.value;
    var i := 0;
    while i < |docs|
      invariant 0 <= i <= |docs|
      invariant forall j :: 0 <= j < i ==> !HasTranscript(docs[j])
    {
      if docs[i].Some? {
        var transcript := FindTranscript(docs[i].value, 0, MaxJsonDepth);
        if transcript.Some? && transcript.value != "" && |transcript.value| >= MinTranscriptLength {
          FirstWhereAt(docs, i, HasTranscript);
          return transcript;
        }
      }
      i := i + 1;
    }
    return None;
  }

  // ---------------------------------------------------------------------------
  // get_transcript: methods in order, each retried
  // ---------------------------------------------------------------------------

  /** The names `get_transcript` reports, in the order it tries the methods. */
  const MethodNames: seq<string> := ["Internal API", "TimedText API", "Library", "JSON Extract"]

  /** `get_transcript`'s default `max_retries`, the one the batch loop uses. */
  const DefaultRetries: nat := 3

  /** What one method call sees of the network. */
  datatype Snapshot = Snapshot(
    watchPage: Option<seq<CaptionTrack>>,
    captionXml: string -> Option<XmlPayload>,
    trackList: Option<seq<LanguageEntry>>,
    timedTextXml: string -> Option<XmlPayload>,
    library: Option<LibraryListing>,
    embeddedJson: Option<seq<Option<Json>>>)

  /** What the network shows the `k`-th attempt of the `m`-th method. */
  type Network = (nat, nat) -> Snapshot

  /** The return value of the `m`-th method on a snapshot. */
  function MethodOutcome(m: nat, s: Snapshot): (r: Option<string>)
    ensures r.Some? ==> |r.value| >= MinTranscriptLength
  {
    if m == 0 then Method1Result(s.watchPage, s.captionXml)
    else if m == 1 then Method2Result(s.trackList, s.timedTextXml)
    else if m == 2 then Method3Library(s.library)
    else if m == 3 then Method5Result(s.embeddedJson)
    else None
  }

  /** What each call returns: `attempt(m, k)` is the value of the `k`-th attempt of method `m`. */
  type Attempts = (nat, nat) -> Option<string>

  /** The method calls of one `get_transcript` run, against what the network shows each of them. */
  function AttemptsOf(net: Network): Attempts {
    (m: nat, k: nat) => MethodOutcome(m, net(m, k))
  }

  /** `if transcript:` */
  predicate Truthy(t: Option<string>) {
    t.Some? && t.value != ""
  }

  /** Attempt `k` of method `m` turned up text. */
  predicate Hit(attempt: Attempts, m: nat, k: nat) {
    Truthy(attempt(m, k))
  }

  /** `(m, k)` comes before `(m', k')` in the order the calls are made. */
  predicate Before(m: nat, k: nat, m': nat, k': nat) {
    m < m' || (m == m' && k < k')
  }

  /**
   * The calls still to be made once the loops stand at method `m`, attempt
   * `k`: the remaining attempts of `m` and all attempts of later methods.
   */
  predicate Pending(m: nat, k: nat, retries: nat, a: nat, b: nat) {
    a < |MethodNames| && b < retries && (a > m || (a == m && b >= k))
  }

  /** The first attempt, from method `m` attempt `k` on, that turns up text. */
  function Search(attempt: Attempts, retries: nat, m: nat, k: nat): (r: Option<(nat, nat)>)
    ensures r.Some? ==> r.value.0 < |MethodNames| && Hit(attempt, r.value.0, r.value.1)
    decreases |MethodNames| - m, retries - k
  {
    if m >= |MethodNames| then None
    else if k >= retries then Search(attempt, retries, m + 1, 0)
    else if Hit(attempt, m, k) then Some((m, k))
    else Search(attempt, retries, m, k + 1)
  }

  /**
   * What `Search` finds: a pending attempt that turns up text, with no
   * pending attempt before it doing so; and when it finds nothing, no
   * pending attempt turns up text.
   */
  lemma {:induction false} SearchSpec(attempt: Attempts, retries: nat, m: nat, k: nat)
    ensures var r := Search(attempt, retries, m, k);
      && (r.Some? ==> Pending(m, k, retries, r.value.0, r.value.1))
      && (r.Some? ==> forall a: nat, b: nat ::
            Pending(m, k, retries, a, b) && Before(a, b, r.value.0, r.value.1) ==> !Hit(attempt, a, b))
      && (r.None? ==> forall a: nat, b: nat :: Pending(m, k, retries, a, b) ==> !Hit(attempt, a, b))
    decreases |MethodNames| - m, retries - k
  {
    if m < |MethodNames| {
      if k >= retries {
        SearchSpec(attempt, retries, m + 1, 0);
        assert forall a: nat, b: nat :: Pending(m, k, retries, a, b) ==> Pending(m + 1, 0, retries, a, b);
      } else if !Hit(attempt, m, k) {
        SearchSpec(attempt, retries, m, k + 1);
      }
    }
  }

  /** The calls the loops make from method `m`, attempt `k` on, in order. */
  function Calls(attempt: Attempts, retries: nat, m: nat, k: nat): seq<(nat, nat)>
    decreases |MethodNames| - m, retries - k
  {
    if m >= |MethodNames| then []
    else if k >= retries then Calls(attempt, retries, m + 1, 0)
    else [(m, k)] + (if Hit(attempt, m, k) then [] else Calls(attempt, retries, m, k + 1))
  }

  /** A transcript and the name of the method that produced it. */
  datatype Acquired = Acquired(text: string, methodName: string)

  /** `get_transcript`'s return value: the text of the first hit and its method's name. */
  function Result(attempt: Attempts, retries: nat): Option<Acquired> {
    match Search(attempt, retries, 0, 0)
    case None => None
    case Some(hit) => Some(Acquired(attempt(hit.0, hit.1).value, MethodNames[hit.0]))
  }

  /** Whatever `get_transcript` returns is a transcript of at least 100 characters from a named method. */
  lemma ResultShape(net: Network, retries: nat)
    ensures var r := Result(AttemptsOf(net), retries);
      r.Some? ==> |r.value.text| >= MinTranscriptLength && r.value.methodName in MethodNames
  {
    var hit := Search(AttemptsOf(net), retries, 0, 0);
    if hit.Some? {
      assert AttemptsOf(net)(hit.value.0, hit.value.1) == MethodOutcome(hit.value.0, net(hit.value.0, hit.value.1));
    }
  }

  /** How many calls in `calls` went to method `a`. */
  function CallsTo(calls: seq<(nat, nat)>, a: nat): nat {
    if calls == [] then 0
    else (if calls[0].0 == a then 1 else 0) + CallsTo(calls[1..], a)
  }

  /** No method is called more than `retries` times. */
  lemma {:induction false} CallsPerMethod(attempt: Attempts, retries: nat, m: nat, k: nat, a: nat)
    requires k <= retries
    ensures CallsTo(Calls(attempt, retries, m, k), a) <= if a == m then retries - k else if a > m then retries else 0
    decreases |MethodNames| - m, retries - k
  {
    var calls := Calls(attempt, retries, m, k);
    if m < |MethodNames| {
      if k >= retries {
        CallsPerMethod(attempt, retries, m + 1, 0, a);
      } else {
        assert calls[1..] == if Hit(attempt, m, k) then [] else Calls(attempt, retries, m, k + 1);
        if !Hit(attempt, m, k) {
          CallsPerMethod(attempt, retries, m, k + 1, a);
        }
      }
    }
  }

  /**
   * The call `c` is pending from method `m`, attempt `k`, and every pending
   * call before it turned up nothing.
   */
  ghost predicate AfterFailures(attempt: Attempts, retries: nat, m: nat, k: nat, c: (nat, nat)) {
    Pending(m, k, retries, c.0, c.1) &&
    forall a: nat, b: nat :: Pending(m, k, retries, a, b) && Before(a, b, c.0, c.1) ==> !Hit(attempt, a, b)
  }

  /**
   * A call is made only after every pending call before it was made and
   * turned up nothing; in particular a later method runs only after every
   * attempt of every earlier method has failed.
   */
  lemma {:induction false} CallsOnlyAfterFailures(attempt: Attempts, retries: nat, m: nat, k: nat)
    ensures forall i :: 0 <= i < |Calls(attempt, retries, m, k)| ==>
      AfterFailures(attempt, retries, m, k, Calls(attempt, retries, m, k)[i])
    decreases |MethodNames| - m, retries - k
  {
    var calls := Calls(attempt, retries, m, k);
    if m < |MethodNames| {
      if k >= retries {
        CallsOnlyAfterFailures(attempt, retries, m + 1, 0);
        assert calls == Calls(attempt, retries, m + 1, 0);
        forall i | 0 <= i < |calls| ensures AfterFailures(attempt, retries, m, k, calls[i]) {
          assert AfterFailures(attempt, retries, m + 1, 0, calls[i]);
          assert forall a: nat, b: nat :: Pending(m, k, retries, a, b) ==> Pending(m + 1, 0, retries, a, b);
        }
      } else if !Hit(attempt, m, k) {
        var rest := Calls(attempt, retries, m, k + 1);
        CallsOnlyAfterFailures(attempt, retries, m, k + 1);
        assert calls == [(m, k)] + rest;
        forall i | 0 <= i < |calls| ensures AfterFailures(attempt, retries, m, k, calls[i]) {
          if i > 0 {
            assert calls[i] == rest[i - 1];
            assert AfterFailures(attempt, retries, m, k + 1, rest[i - 1]);
          }
        }
      }
    }
  }

  /** The calls stop at the first hit: the last call is the hit when there is one. */
  lemma {:induction false} CallsEndAtHit(attempt: Attempts, retries: nat, m: nat, k: nat)
    ensures var calls := Calls(attempt, retries, m, k);
      Search(attempt, retries, m, k).Some? ==> calls != [] && calls[|calls| - 1] == Search(attempt, retries, m, k).value
    decreases |MethodNames| - m, retries - k
  {
    if m < |MethodNames| {
      if k >= retries {
        CallsEndAtHit(attempt, retries, m + 1, 0);
      } else if !Hit(attempt, m, k) {
        CallsEndAtHit(attempt, retries, m, k + 1);
      }
    }
  }

  /** `AdvancedTranscriptFetcher` with its two counters. */
  class AdvancedTranscriptFetcher {
    var successCount: nat
    var failCount: nat

    constructor ()
      ensures successCount == 0 && failCount == 0
    {
      successCount := 0;
      failCount := 0;
    }

    /** Calls the `m`-th method on what the network shows it. */
    method CallMethod(m: nat, s: Snapshot) returns (t: Option<string>)
      requires m < |MethodNames|
      ensures t == MethodOutcome(m, s)
    {
      if m == 0 {
        t := Method1InternalApi(s.watchPage, s.captionXml);
      } else if m == 1 {
        t := Method2TimedText(s.trackList, s.timedTextXml);
      } else if m == 2 {
        t := Method3Library(s.library);
      } else {
        t := Method5ExtractFromJson(s.embeddedJson);
      }
    }

    /**
     * The inner retry loop of `get_transcript` for method `m`: up to
     * `maxRetries` attempts, stopping at the first that turns up text.
     * `calls` is extended by the calls made.
     */
    method TryMethod(net: Network, m: nat, maxRetries: nat, ghost calls: seq<(nat, nat)>)
      returns (found: Option<string>, ghost k: nat, ghost calls': seq<(nat, nat)>)
      requires m < |MethodNames|
      requires Search(AttemptsOf(net), maxRetries, 0, 0) == Search(AttemptsOf(net), maxRetries, m, 0)
      requires calls + Calls(AttemptsOf(net), maxRetries, m, 0) == Calls(AttemptsOf(net), maxRetries, 0, 0)
      ensures found.Some? ==>
        && Search(AttemptsOf(net), maxRetries, 0, 0) == Some((m, k))
        && found.value == AttemptsOf(net)(m, k).value
        && calls' == Calls(AttemptsOf(net), maxRetries, 0, 0)
      ensures found.None? ==>
        && Search(AttemptsOf(net), maxRetries, 0, 0) == Search(AttemptsOf(net), maxRetries, m + 1, 0)
        && calls' + Calls(AttemptsOf(net), maxRetries, m + 1, 0) == Calls(AttemptsOf(net), maxRetries, 0, 0)
    {
      ghost var attempt := AttemptsOf(net);
      calls' := calls;
      var j := 0;
      while j < maxRetries
        invariant 0 <= j <= maxRetries
        invariant Search(attempt, maxRetries, 0, 0) == Search(attempt, maxRetries, m, j)
        invariant calls' + Calls(attempt, maxRetries, m, j) == Calls(attempt, maxRetries, 0, 0)
      {
        var transcript := CallMethod(m, net(m, j));
        assert transcript == attempt(m, j);
        assert calls' + Calls(attempt, maxRetries, m, j) == (calls' + [(m, j)]) +
          (if Hit(attempt, m, j) then [] else Calls(attempt, maxRetries, m, j + 1));
        calls' := calls' + [(m, j)];
        if transcript.Some? && transcript.value != "" {
          return Some(transcript.value), j, calls';
        }
        j := j + 1;
      }
      k := j;
      found := None;
    }

    /**
     * `get_transcript(video_id, max_retries)`: the first text any attempt
     * turns up, with its method's name; exactly one counter goes up.
     * `calls` is the sequence of (method, attempt) calls made.
     */
    method GetTranscript(net: Network, maxRetries: nat) returns (r: Option<Acquired>, ghost calls: seq<(nat, nat)>)
      modifies this
      ensures r == Result(AttemptsOf(net), maxRetries)
      ensures calls == Calls(AttemptsOf(net), maxRetries, 0, 0)
      ensures r.Some? ==> successCount == old(successCount) + 1 && failCount == old(failCount)
      ensures r.None? ==> failCount == old(failCount) + 1 && successCount == old(successCount)
    {
      ghost var attempt := AttemptsOf(net);
      calls := [];
      var m := 0;
      while m < |MethodNames|
        invariant 0 <= m <= |MethodNames|
        invariant Search(attempt, maxRetries, 0, 0) == Search(attempt, maxRetries, m, 0)
        invariant calls + Calls(attempt, maxRetries, m, 0) == Calls(attempt, maxRetries, 0, 0)
        invariant successCount == old(successCount) && failCount == old(failCount)
      {
        var found;
        ghost var k;
        found, k, calls := TryMethod(net, m, maxRetries, calls);
        if found.Some? {
          successCount := successCount + 1;
          return Some(Acquired(found.value, MethodNames[m])), calls;
        }
        m := m + 1;
      }
      failCount := failCount + 1;
      return None, calls;
    }
  }

  // ---------------------------------------------------------------------------
  // fetch_transcripts_advanced: the batch loop
  // ---------------------------------------------------------------------------

  /** The outcome of `get_transcript` for the `i`-th video. */
  function Outcome(nets: nat -> Network, i: nat): Option<Acquired> {
    Result(AttemptsOf(nets(i)), DefaultRetries)
  }

  /** The outcomes of the first `n` videos, in order. */
  function Outcomes(nets: nat -> Network, n: nat): (outs: seq<Option<Acquired>>)
    ensures |outs| == n
  {
    if n == 0 then [] else Outcomes(nets, n - 1) + [Outcome(nets, n - 1)]
  }

  /** The (video, transcript) updates made for the given outcomes, in order. */
  function Writes(videos: seq<string>, outs: seq<Option<Acquired>>): (w: seq<(string, string)>)
    requires |outs| <= |videos|
    ensures |w| <= |outs|
  {
    if outs == [] then []
    else
      var n := |outs| - 1;
      Writes(videos, outs[..n]) + (if outs[n].Some? then [(videos[n], outs[n].value.text)] else [])
  }

  /** How many of the outcomes are successes of the method named `name`. */
  function SuccessesBy(outs: seq<Option<Acquired>>, name: string): nat {
    if outs == [] then 0
    else
      var o := outs[|outs| - 1];
      SuccessesBy(outs[..|outs| - 1], name) + (if o.Some? && o.value.methodName == name then 1 else 0)
  }

  /** `d.get(key, 0)` */
  function GetOr(d: map<string, nat>, key: string): nat {
    if key in d then d[key] else 0
  }

  /** Every success is credited to one of the four method names. */
  predicate NamedSuccesses(outs: seq<Option<Acquired>>) {
    forall i :: 0 <= i < |outs| && outs[i].Some? ==> outs[i].value.methodName in MethodNames
  }

  /** The outcomes of `get_transcript` only ever name the four methods. */
  lemma {:induction false} OutcomesNamed(nets: nat -> Network, n: nat)
    ensures NamedSuccesses(Outcomes(nets, n))
  {
    if n > 0 {
      OutcomesNamed(nets, n - 1);
      ResultShape(nets(n - 1), DefaultRetries);
      var outs := Outcomes(nets, n);
      assert outs[..n - 1] == Outcomes(nets, n - 1);
      forall i | 0 <= i < n && outs[i].Some? ensures outs[i].value.methodName in MethodNames {
        if i < n - 1 {
          assert outs[i] == Outcomes(nets, n - 1)[i];
        }
      }
    }
  }

  /** The per-method counts add up to the number of successes. */
  lemma {:induction false} SuccessesByAddUp(outs: seq<Option<Acquired>>)
    requires NamedSuccesses(outs)
    ensures SuccessesBy(outs, MethodNames[0]) + SuccessesBy(outs, MethodNames[1]) +
      SuccessesBy(outs, MethodNames[2]) + SuccessesBy(outs, MethodNames[3]) == CountSome(outs)
  {
    if outs != [] {
      var prefix := outs[..|outs| - 1];
      assert NamedSuccesses(prefix) by {
        forall i | 0 <= i < |prefix| && prefix[i].Some? ensures prefix[i].value.methodName in MethodNames {
          assert prefix[i] == outs[i];
        }
      }
      SuccessesByAddUp(prefix);
    }
  }

  /** The item counts after which the loop pauses: every multiple of the batch size up to `n`, the last item included. */
  function PausesUpTo(n: nat, batchSize: int): (p: seq<nat>)
    requires batchSize != 0
  {
    if n == 0 then []
    else PausesUpTo(n - 1, batchSize) + (if n % batchSize == 0 then [n] else [])
  }

  /** A pause follows item `k` exactly when `k` is a multiple of the batch size, and pauses come in order. */
  lemma {:induction false} PausesUpToSpec(n: nat, batchSize: int)
    requires batchSize != 0
    ensures forall k :: k in PausesUpTo(n, batchSize) <==> 1 <= k <= n && k % batchSize == 0
    ensures forall i, j :: 0 <= i < j < |PausesUpTo(n, batchSize)| ==> PausesUpTo(n, batchSize)[i] < PausesUpTo(n, batchSize)[j]
  {
    if n > 0 {
      PausesUpToSpec(n - 1, batchSize);
      var prev := PausesUpTo(n - 1, batchSize);
      forall i | 0 <= i < |prev| ensures prev[i] < n {
        assert prev[i] in prev;
      }
    }
  }

  /** With five videos and batches of two the pauses follow items 2 and 4; with four, also after the last. */
  lemma PausesExample()
    ensures PausesUpTo(5, 2) == [2, 4]
    ensures PausesUpTo(4, 2) == [2, 4]
  {
    assert PausesUpTo(2, 2) == [2];
    assert PausesUpTo(4, 2) == [2, 4];
  }

  /** Appending an outcome appends its update, if it is a success. */
  lemma WritesStep(videos: seq<string>, outs: seq<Option<Acquired>>, o: Option<Acquired>)
    requires |outs| < |videos|
    ensures Writes(videos, outs + [o]) == Writes(videos, outs) + (if o.Some? then [(videos[|outs|], o.value.text)] else [])
  {
    assert (outs + [o])[..|outs|] == outs;
  }

  /**
   * `method_stats[method] = method_stats.get(method, 0) + 1` keeps the
   * counts in step with the outcomes and the keys among the method names.
   */
  lemma StatsStep(outs: seq<Option<Acquired>>, stats: map<string, nat>, o: Option<Acquired>)
    requires forall name :: GetOr(stats, name) == SuccessesBy(outs, name)
    requires forall name :: name in stats ==> name in MethodNames
    requires o.Some? ==> o.value.methodName in MethodNames
    ensures var stats' := if o.Some? then stats[o.value.methodName := GetOr(stats, o.value.methodName) + 1] else stats;
      && (forall name :: GetOr(stats', name) == SuccessesBy(outs + [o], name))
      && (forall name :: name in stats' ==> name in MethodNames)
  {
    var outs' := outs + [o];
    assert outs'[..|outs|] == outs;
    var stats' := if o.Some? then stats[o.value.methodName := GetOr(stats, o.value.methodName) + 1] else stats;
    forall name ensures GetOr(stats', name) == SuccessesBy(outs', name) {
      assert SuccessesBy(outs', name) == SuccessesBy(outs, name) + (if o.Some? && o.value.methodName == name then 1 else 0);
    }
  }

  /** What the batch loop leaves behind. */
  datatype BatchReport = BatchReport(
    writes: seq<(string, string)>,
    pauses: seq<nat>,
    methodStats: map<string, nat>,
    successCount: nat,
    failCount: nat)

  /**
   * The loop's bookkeeping once the outcomes `outs` of the first `|outs|`
   * videos are known: the updates and pauses made so far, `method_stats`
   * in step with the outcomes, and the fetcher's two counters.
   */
  ghost predicate Tallied(fetcher: AdvancedTranscriptFetcher, videos: seq<string>, outs: seq<Option<Acquired>>,
    batchSize: int, writes: seq<(string, string)>, pauses: seq<nat>, methodStats: map<string, nat>)
    requires |outs| <= |videos| && batchSize != 0
    reads fetcher
  {
    && writes == Writes(videos, outs)
    && pauses == PausesUpTo(|outs|, batchSize)
    && (forall name :: GetOr(methodStats, name) == SuccessesBy(outs, name))
    && (forall name :: name in methodStats ==> name in MethodNames)
    && fetcher.successCount == CountSome(outs)
    && fetcher.successCount + fetcher.failCount == |outs|
  }

  /** One pass of the batch loop for video `i`: fetch, then record the outcome. */
  method FetchOne(fetcher: AdvancedTranscriptFetcher, videos: seq<string>, nets: nat -> Network, i: nat, batchSize: int,
    writes: seq<(string, string)>, pauses: seq<nat>, methodStats: map<string, nat>, ghost outs: seq<Option<Acquired>>)
    returns (writes': seq<(string, string)>, pauses': seq<nat>, methodStats': map<string, nat>, ghost outs': seq<Option<Acquired>>)
    requires batchSize != 0 && i < |videos|
    requires outs == Outcomes(nets, i)
    requires Tallied(fetcher, videos, outs, batchSize, writes, pauses, methodStats)
    modifies fetcher
    ensures outs' == Outcomes(nets, i + 1)
    ensures Tallied(fetcher, videos, outs', batchSize, writes', pauses', methodStats')
  {
    var transcript;
    ghost var calls;
    transcript, calls := fetcher.GetTranscript(nets(i), DefaultRetries);
    ResultShape(nets(i), DefaultRetries);
    assert transcript == Outcome(nets, i);
    CountSomeSnoc(outs, transcript);
    outs' := outs + [transcript];
    writes', pauses', methodStats' := Record(fetcher, videos, i, batchSize, writes, pauses, methodStats, outs, transcript);
  }

  /**
   * The rest of the pass, once `get_transcript` has returned `o` and
   * counted it: a found transcript is written and credited to its method
   * in `method_stats`, and the loop pauses after every `batch_size`-th item.
   */
  method Record(fetcher: AdvancedTranscriptFetcher, videos: seq<string>, i: nat, batchSize: int,
    writes: seq<(string, string)>, pauses: seq<nat>, methodStats: map<string, nat>, ghost outs: seq<Option<Acquired>>, o: Option<Acquired>)
    returns (writes': seq<(string, string)>, pauses': seq<nat>, methodStats': map<string, nat>)
    requires batchSize != 0 && i == |outs| < |videos|
    requires o.Some? ==> o.value.methodName in MethodNames
    requires writes == Writes(videos, outs)
    requires pauses == PausesUpTo(i, batchSize)
    requires forall name :: GetOr(methodStats, name) == SuccessesBy(outs, name)
    requires forall name :: name in methodStats ==> name in MethodNames
    requires fetcher.successCount == CountSome(outs + [o])
    requires fetcher.successCount + fetcher.failCount == i + 1
    ensures Tallied(fetcher, videos, outs + [o], batchSize, writes', pauses', methodStats')
  {
    WritesStep(videos, outs, o);
    StatsStep(outs, methodStats, o);
    writes', pauses', methodStats' := writes, pauses, methodStats;
    if o.Some? {
      var name := o.value.methodName;
      methodStats' := methodStats[name := GetOr(methodStats, name) + 1];
      writes' := writes + [(videos[i], o.value.text)];
    }
    assert PausesUpTo(i + 1, batchSize) == pauses + (if (i + 1) % batchSize == 0 then [i + 1] else []);
    if (i + 1) % batchSize == 0 {
      pauses' := pauses + [i + 1];
    }
  }

  /** The batch loop of `fetch_transcripts_advanced` over a fresh fetcher. */
  method FetchAll(fetcher: AdvancedTranscriptFetcher, videos: seq<string>, nets: nat -> Network, batchSize: int)
    returns (writes: seq<(string, string)>, pauses: seq<nat>, methodStats: map<string, nat>)
    requires batchSize != 0
    requires fetcher.successCount == 0 && fetcher.failCount == 0
    modifies fetcher
    ensures Tallied(fetcher, videos, Outcomes(nets, |videos|), batchSize, writes, pauses, methodStats)
  {
    writes, pauses, methodStats := [], [], map[];
    ghost var outs: seq<Option<Acquired>> := [];
    var i := 0;
    while i < |videos|
      invariant 0 <= i <= |videos|
      invariant outs == Outcomes(nets, i)
      invariant Tallied(fetcher, videos, outs, batchSize, writes, pauses, methodStats)
    {
      writes, pauses, methodStats, outs := FetchOne(fetcher, videos, nets, i, batchSize, writes, pauses, methodStats, outs);
      i := i + 1;
    }
  }

  /**
   * `fetch_transcripts_advanced(batch_size)`: one `get_transcript` per
   * video, a database update for each transcript found, `method_stats`
   * updated, and a pause after every `batch_size`-th item.
   */
  method FetchTranscriptsAdvanced(videos: seq<string>, nets: nat -> Network, batchSize: int) returns (report: BatchReport)
    requires batchSize != 0
    ensures var outs := Outcomes(nets, |videos|);
      && report.writes == Writes(videos, outs)
      && report.pauses == PausesUpTo(|videos|, batchSize)
      && (forall name :: GetOr(report.methodStats, name) == SuccessesBy(outs, name))
      && (forall name :: name in report.methodStats ==> name in MethodNames)
      && report.successCount == CountSome(outs)
      && report.successCount + report.failCount == |videos|
  {
    var fetcher := new AdvancedTranscriptFetcher();
    var writes, pauses, methodStats := FetchAll(fetcher, videos, nets, batchSize);
    report := BatchReport(writes, pauses, methodStats, fetcher.successCount, fetcher.failCount);
  }
}
