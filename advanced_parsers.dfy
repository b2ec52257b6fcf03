/**
 * The two payload parsers of `AdvancedTranscriptFetcher`: the timed-text XML
 * segment cleaner (`_parse_xml_transcript`) and the bounded-depth search of a
 * JSON document for a transcript-like string (`_find_transcript_in_json`).
 */
module AdvancedParsers {
  import opened Options
  import opened PyStr

  // ---------------------------------------------------------------------------
  // Tag removal: re.sub(r'<[^>]+>', '', text)
  // ---------------------------------------------------------------------------

  /** The pattern `<[^>]+>` matches at position `i` of `s`. */
  predicate TagAt(s: string, i: nat)
    requires i < |s|
  {
    s[i] == '<' && i + 1 < |s| && s[i + 1] != '>' && '>' in s[i + 2..]
  }

  /** No position of `s` starts a match of `<[^>]+>`. */
  predicate TagFree(s: string) {
    forall i :: 0 <= i < |s| ==> !TagAt(s, i)
  }

  /**
   * `re.sub(r'<[^>]+>', '', s)`: scanning left to right, every match of the
   * pattern is deleted; a `<` that starts no match is kept.
   */
  function StripTags(s: string): (r: string)
    ensures forall i :: 0 <= i < |r| ==> r[i] in s
    decreases |s|
  {
    if s == [] then []
    else if TagAt(s, 0) then
      var close := 2 + SpanWithout(s[2..], '>');
      var r := StripTags(s[close + 1..]);
      assert forall i :: 0 <= i < |r| ==> r[i] in s[close + 1..];
      r
    else
      var r := StripTags(s[1..]);
      [s[0]] + r
  }

  /** After the substitution no match of the pattern is left. */
  lemma {:induction false} StripTagsTagFree(s: string)
    ensures TagFree(StripTags(s))
    decreases |s|
  {
    if s != [] {
      if TagAt(s, 0) {
        var close := 2 + SpanWithout(s[2..], '>');
        assert StripTags(s) == StripTags(s[close + 1..]);
        StripTagsTagFree(s[close + 1..]);
      } else {
        var rest := StripTags(s[1..]);
        assert StripTags(s) == [s[0]] + rest;
        StripTagsTagFree(s[1..]);
        var r := [s[0]] + rest;
        forall i | 0 <= i < |r| ensures !TagAt(r, i) {
          if i == 0 {
            KeptFirstNoTag(s, rest);
          } else {
            ConsNoLaterTag(s[0], rest, i);
          }
        }
      }
    }
  }

  /** A first character that starts no match starts none once the rest is substituted. */
  lemma KeptFirstNoTag(s: string, rest: string)
    requires s != [] && !TagAt(s, 0) && rest == StripTags(s[1..])
    ensures !TagAt([s[0]] + rest, 0)
  {
    var r := [s[0]] + rest;
    if s[0] == '<' && |s| > 1 && |r| > 1 {
      if s[1] == '>' {
        assert !TagAt(s[1..], 0);
        assert StripTags(s[1..]) == [s[1]] + StripTags(s[2..]);
        assert rest[0] == '>';
      } else {
        assert '>' !in s[1..] by {
          assert s[1..] == [s[1]] + s[2..];
        }
        assert '>' !in r[2..] by {
          assert forall k :: 0 <= k < |rest| ==> rest[k] in s[1..];
          assert r[2..] == rest[1..];
        }
      }
    }
  }

  /** Putting one character in front of a string free of matches adds no match after it. */
  lemma ConsNoLaterTag(c: char, rest: string, i: nat)
    requires TagFree(rest) && 0 < i <= |rest|
    ensures !TagAt([c] + rest, i)
  {
    var r := [c] + rest;
    assert r[i] == rest[i - 1];
    assert !TagAt(rest, i - 1);
    if i + 1 < |r| {
      assert r[i + 1] == rest[i];
      assert r[i + 2..] == rest[i + 1..];
    }
  }

  /** A string with no match of the pattern is left unchanged. */
  lemma {:induction false} StripTagsOfTagFree(s: string)
    requires TagFree(s)
    ensures StripTags(s) == s
    decreases |s|
  {
    if s != [] {
      assert !TagAt(s, 0);
      assert TagFree(s[1..]) by {
        forall i | 0 <= i < |s[1..]| ensures !TagAt(s[1..], i) {
          assert !TagAt(s, i + 1);
          if i + 1 < |s[1..]| {
            assert s[1..][i + 2..] == s[i + 3..];
          }
        }
      }
      StripTagsOfTagFree(s[1..]);
    }
  }

  lemma TagFreeSlice(s: string, lo: nat, hi: nat)
    requires TagFree(s) && lo <= hi <= |s|
    ensures TagFree(s[lo..hi])
  {
    var t := s[lo..hi];
    forall i | 0 <= i < |t| ensures !TagAt(t, i) {
      assert !TagAt(s, lo + i);
      if i + 1 < |t| {
        assert s[lo + i + 2..] == t[i + 2..] + s[hi..];
      }
    }
  }

  lemma TagFreeReplaceNewline(s: string)
    requires TagFree(s)
    ensures TagFree(ReplaceChar(s, '\n', ' '))
  {
    var t := ReplaceChar(s, '\n', ' ');
    forall i | 0 <= i < |t| ensures !TagAt(t, i) {
      assert !TagAt(s, i);
      if i + 1 < |t| {
        assert t[i + 2..] == ReplaceChar(s[i + 2..], '\n', ' ');
        ReplaceCharKeeps(s[i + 2..], '\n', ' ', '>');
      }
    }
  }

  // ---------------------------------------------------------------------------
  // _parse_xml_transcript
  // ---------------------------------------------------------------------------

  /**
   * What `ET.fromstring(xml_text)` leaves for the parser: either the document
   * failed to parse, or the texts of its `.//text` elements in document order
   * (`None` for an element without text).
   */
  datatype XmlPayload = Malformed | Elements(texts: seq<Option<string>>)

  /** One kept element: tags removed, newlines turned into spaces, stripped. */
  function CleanSegment(text: string): (seg: string)
    ensures TagFree(seg)
    ensures '\n' !in seg
    ensures Trimmed(seg)
  {
    var untagged := StripTags(text);
    StripTagsTagFree(text);
    TagFreeReplaceNewline(untagged);
    var flat := ReplaceChar(untagged, '\n', ' ');
    StripClean(flat);
    Strip(flat)
  }

  lemma StripClean(flat: string)
    requires TagFree(flat) && '\n' !in flat
    ensures TagFree(Strip(flat)) && '\n' !in Strip(flat)
  {
    var seg := Strip(flat);
    var lead := LeadSpace(flat);
    TagFreeSlice(flat, lead, lead + |seg|);
    assert seg == flat[lead..lead + |seg|];
  }

  /** `if text:` -- the element has a non-empty text. */
  predicate Kept(text: Option<string>) {
    text.Some? && text.value != ""
  }

  /** The segments the loop appends, given the element texts (defined from the last element). */
  function Segments(texts: seq<Option<string>>): seq<string>
    decreases |texts|
  {
    if texts == [] then []
    else
      var last := texts[|texts| - 1];
      Segments(texts[..|texts| - 1]) + (if Kept(last) then [CleanSegment(last.value)] else [])
  }

  /** Segments follow document order: the segments of a concatenation are the concatenated segments. */
  lemma {:induction false} SegmentsAppend(a: seq<Option<string>>, b: seq<Option<string>>)
    ensures Segments(a + b) == Segments(a) + Segments(b)
    decreases |b|
  {
    if b != [] {
      var b', x := b[..|b| - 1], b[|b| - 1];
      assert (a + b)[..|a + b| - 1] == a + b';
      assert (a + b)[|a + b| - 1] == x;
      var e := if Kept(x) then [CleanSegment(x.value)] else [];
      SegmentsAppend(a, b');
      calc {
        Segments(a + b);
        Segments(a + b') + e;
        Segments(a) + Segments(b') + e;
        Segments(a) + (Segments(b') + e);
        Segments(a) + Segments(b);
      }
    } else {
      assert a + b == a;
    }
  }

  /** One more element adds its segment, if it has one, at the end. */
  lemma SegmentsPrefix(texts: seq<Option<string>>, i: nat)
    requires i < |texts|
    ensures Segments(texts[..i + 1]) ==
      Segments(texts[..i]) + (if Kept(texts[i]) then [CleanSegment(texts[i].value)] else [])
  {
    assert texts[..i + 1][..i] == texts[..i];
  }

  /** An element with no text, or an empty one, contributes nothing; any other contributes exactly its cleaned text. */
  lemma SegmentsOfOne(text: Option<string>)
    ensures Segments([text]) == if Kept(text) then [CleanSegment(text.value)] else []
  {
    assert [text][..0] == [];
  }

  /** What every segment is: free of tags and newlines, with no whitespace at either end. */
  predicate IsCleanSegment(seg: string) {
    TagFree(seg) && '\n' !in seg && Trimmed(seg)
  }

  /** Every segment is clean, and there is at most one per element. */
  lemma {:induction false} SegmentsAreClean(texts: seq<Option<string>>)
    ensures forall k :: 0 <= k < |Segments(texts)| ==> IsCleanSegment(Segments(texts)[k])
    ensures |Segments(texts)| <= |texts|
    decreases |texts|
  {
    if texts != [] {
      var prefix := texts[..|texts| - 1];
      SegmentsAreClean(prefix);
      var last := texts[|texts| - 1];
      if Kept(last) {
        var seg := CleanSegment(last.value);
        assert Segments(texts) == Segments(prefix) + [seg];
        assert IsCleanSegment(seg);
      }
    }
  }

  /**
   * `_parse_xml_transcript`: `None` when the document does not parse,
   * otherwise the kept segments joined by single spaces.
   */
  method ParseXmlTranscript(payload: XmlPayload) returns (r: Option<string>)
    ensures payload.Malformed? ==> r == None
    ensures payload.Elements? ==> r == Some(JoinSpace(Segments(payload.texts)))
  {
    if payload.Malformed? {
      return None;
    }
    var texts := payload.texts;
    var segments: seq<string> := [];
    var i := 0;
    while i < |texts|
      invariant 0 <= i <= |texts|
      invariant segments == Segments(texts[..i])
    {
      var text := texts[i];
      SegmentsPrefix(texts, i);
      if Kept(text) {
        var untagged := StripTags(text.value);
        var flat := ReplaceChar(untagged, '\n', ' ');
        segments := segments + [Strip(flat)];
      }
      i := i + 1;
    }
    assert texts[..i] == texts;
    return Some(JoinSpace(segments));
  }

  // ---------------------------------------------------------------------------
  // _find_transcript_in_json
  // ---------------------------------------------------------------------------

  /**
   * A value produced by `json.loads`. An object lists its members in the
   * dict's iteration (insertion) order.
   */
  datatype Json =
    | JNull
    | JBool(b: bool)
    | JNumber(literal: string)
    | JString(str: string)
    | JArray(items: seq<Json>)
    | JObject(members: seq<Member>)

  datatype Member = Member(key: string, value: Json)

  /** The keys the search looks at in every dict, in the order it looks at them. */
  const TranscriptKeys: seq<string> := ["transcript", "captions", "subtitles", "text", "content"]

  /** The position of the first member with key `key`, if any. */
  function KeyIndex(members: seq<Member>, key: string): (r: Option<nat>)
    ensures r.Some? ==> r.value < |members| && members[r.value].key == key
    ensures r.Some? ==> forall i :: 0 <= i < r.value ==> members[i].key != key
    ensures r.None? ==> forall i :: 0 <= i < |members| ==> members[i].key != key
  {
    if members == [] then None
    else if members[0].key == key then Some(0)
    else match KeyIndex(members[1..], key)
      case None => None
      case Some(i) => Some(i + 1)
  }

  /** `obj[key]` if `key in obj`, else `None`. */
  function Lookup(members: seq<Member>, key: string): Option<Json> {
    match KeyIndex(members, key)
    case None => None
    case Some(i) => Some(members[i].value)
  }

  /** `isinstance(v, str) and len(v) > 100` */
  predicate Qualifies(v: Option<Json>) {
    v.Some? && v.value.JString? && |v.value.str| > 100
  }

  /** The first of `keys` (from index `j`) under which the dict holds a qualifying string. */
  function OwnHit(members: seq<Member>, keys: seq<string>, j: nat): (r: Option<string>)
    requires j <= |keys|
    ensures r.Some? ==> |r.value| > 100
    ensures r.None? ==> forall k :: j <= k < |keys| ==> !Qualifies(Lookup(members, keys[k]))
    decreases |keys| - j
  {
    if j == |keys| then None
    else if Qualifies(Lookup(members, keys[j])) then Some(Lookup(members, keys[j]).value.str)
    else OwnHit(members, keys, j + 1)
  }

  /** A hit is the string held under one of the keys tried. */
  lemma {:induction false} OwnHitSound(members: seq<Member>, keys: seq<string>, j: nat)
    requires j <= |keys|
    ensures var r := OwnHit(members, keys, j);
      r.Some? ==> exists k :: j <= k < |keys| && Lookup(members, keys[k]) == Some(JString(r.value))
    decreases |keys| - j
  {
    if j < |keys| && !Qualifies(Lookup(members, keys[j])) {
      OwnHitSound(members, keys, j + 1);
    }
  }

  /** The dict holds `s` under one of the transcript keys. */
  predicate OwnKeyHolds(ms: seq<Member>, s: string) {
    exists k :: 0 <= k < |TranscriptKeys| && Lookup(ms, TranscriptKeys[k]) == Some(JString(s))
  }

  /** A dict holding a long enough string under a transcript key always has an own hit. */
  lemma OwnHitComplete(ms: seq<Member>, s: string)
    requires OwnKeyHolds(ms, s) && |s| > 100
    ensures OwnHit(ms, TranscriptKeys, 0).Some?
  {
    var k :| 0 <= k < |TranscriptKeys| && Lookup(ms, TranscriptKeys[k]) == Some(JString(s));
    assert Qualifies(Lookup(ms, TranscriptKeys[k]));
  }

  /**
   * `s` is reachable from `obj` as the value of one of the transcript keys of
   * some dict at most `fuel` levels below `obj` (`obj` itself is level 0).
   */
  predicate KeyedWithin(obj: Json, s: string, fuel: int)
    decreases obj
  {
    fuel >= 0 &&
    match obj
    case JObject(ms) =>
      || OwnKeyHolds(ms, s)
      || (exists i :: 0 <= i < |ms| && KeyedWithin(ms[i].value, s, fuel - 1))
    case JArray(items) =>
      exists i :: 0 <= i < |items| && KeyedWithin(items[i], s, fuel - 1)
    case _ => false
  }

  /**
   * `_find_transcript_in_json(obj, depth, max_depth)`. Nothing is searched
   * below `max_depth`, and whatever is returned is longer than 100 characters
   * (`FindSound` says where it comes from).
   */
  function FindTranscript(obj: Json, depth: int, maxDepth: int): (r: Option<string>)
    ensures depth > maxDepth ==> r.None?
    ensures r.Some? ==> |r.value| > 100
    decreases obj, 1, 0
  {
    if depth > maxDepth then None
    else match obj
      case JObject(ms) =>
        var own := OwnHit(ms, TranscriptKeys, 0);
        if own.Some? then own else FindInMembers(obj, ms, 0, depth + 1, maxDepth)
      case JArray(items) => FindInItems(obj, items, 0, depth + 1, maxDepth)
      case _ => None
  }

  /** The loop `for value in obj.values()`, from the `i`-th member on. */
  function FindInMembers(obj: Json, ms: seq<Member>, i: nat, depth: int, maxDepth: int): (r: Option<string>)
    requires obj == JObject(ms)
    ensures r.Some? ==> |r.value| > 100
    decreases obj, 0, |ms| - i
  {
    if i >= |ms| then None
    else
      var r := FindTranscript(ms[i].value, depth, maxDepth);
      if r.Some? && r.value != "" then r else FindInMembers(obj, ms, i + 1, depth, maxDepth)
  }

  /** The loop `for item in obj`, from the `i`-th item on. */
  function FindInItems(obj: Json, items: seq<Json>, i: nat, depth: int, maxDepth: int): (r: Option<string>)
    requires obj == JArray(items)
    ensures r.Some? ==> |r.value| > 100
    decreases obj, 0, |items| - i
  {
    if i >= |items| then None
    else
      var r := FindTranscript(items[i], depth, maxDepth);
      if r.Some? && r.value != "" then r else FindInItems(obj, items, i + 1, depth, maxDepth)
  }

  /**
   * Within one dict the keys are tried in order: the first key under which
   * the dict holds a string longer than 100 characters is the one returned.
   */
  lemma {:induction false} OwnHitFirst(members: seq<Member>, keys: seq<string>, j: nat, k: nat)
    requires j <= k < |keys|
    requires Qualifies(Lookup(members, keys[k]))
    requires forall k' :: j <= k' < k ==> !Qualifies(Lookup(members, keys[k']))
    ensures OwnHit(members, keys, j) == Some(Lookup(members, keys[k]).value.str)
    decreases k - j
  {
    if j < k {
      OwnHitFirst(members, keys, j + 1, k);
    }
  }

  /**
   * A dict's own transcript keys are looked at before any of its children:
   * when the `k`-th key holds a qualifying string and no earlier key does,
   * that string is the result, whatever the children hold.
   */
  lemma OwnKeyWins(ms: seq<Member>, depth: int, maxDepth: int, k: nat)
    requires depth <= maxDepth && k < |TranscriptKeys|
    requires Qualifies(Lookup(ms, TranscriptKeys[k]))
    requires forall k' :: 0 <= k' < k ==> !Qualifies(Lookup(ms, TranscriptKeys[k']))
    ensures FindTranscript(JObject(ms), depth, maxDepth) == Some(Lookup(ms, TranscriptKeys[k]).value.str)
  {
    OwnHitFirst(ms, TranscriptKeys, 0, k);
  }

  /**
   * Children are searched depth first in dict order: when the `j`-th value
   * is the first whose search succeeds, its result is the result.
   */
  lemma {:induction false} FirstMemberHitWins(obj: Json, ms: seq<Member>, i: nat, j: nat, depth: int, maxDepth: int)
    requires obj == JObject(ms) && i <= j < |ms|
    requires forall k :: i <= k < j ==> FindTranscript(ms[k].value, depth, maxDepth).None?
    requires FindTranscript(ms[j].value, depth, maxDepth).Some?
    ensures FindInMembers(obj, ms, i, depth, maxDepth) == FindTranscript(ms[j].value, depth, maxDepth)
    decreases j - i
  {
    if i < j {
      FirstMemberHitWins(obj, ms, i + 1, j, depth, maxDepth);
    }
  }

  /** The same for the items of a list, in list order. */
  lemma {:induction false} FirstItemHitWins(obj: Json, items: seq<Json>, i: nat, j: nat, depth: int, maxDepth: int)
    requires obj == JArray(items) && i <= j < |items|
    requires forall k :: i <= k < j ==> FindTranscript(items[k], depth, maxDepth).None?
    requires FindTranscript(items[j], depth, maxDepth).Some?
    ensures FindInItems(obj, items, i, depth, maxDepth) == FindTranscript(items[j], depth, maxDepth)
    decreases j - i
  {
    if i < j {
      FirstItemHitWins(obj, items, i + 1, j, depth, maxDepth);
    }
  }

  /** None of the children succeeds: neither does the loop over them. */
  lemma {:induction false} NoMemberHit(obj: Json, ms: seq<Member>, i: nat, depth: int, maxDepth: int)
    requires obj == JObject(ms)
    requires forall k :: i <= k < |ms| ==> FindTranscript(ms[k].value, depth, maxDepth).None?
    ensures FindInMembers(obj, ms, i, depth, maxDepth).None?
    decreases |ms| - i
  {
    if i < |ms| {
      NoMemberHit(obj, ms, i + 1, depth, maxDepth);
    }
  }

  /**
   * The search misses nothing within its depth: a string longer than 100
   * characters held under a transcript key of a dict at most
   * `maxDepth - depth` levels down is always found (perhaps another one,
   * earlier in search order, is returned instead).
   */
  lemma {:induction false} FindComplete(obj: Json, s: string, depth: int, maxDepth: int)
    requires depth <= maxDepth && |s| > 100 && KeyedWithin(obj, s, maxDepth - depth)
    ensures FindTranscript(obj, depth, maxDepth).Some?
    decreases obj, 1, 0
  {
    match obj
    case JObject(ms) =>
      ObjectComplete(obj, ms, s, depth, maxDepth);
    case JArray(items) =>
      ArrayComplete(obj, items, s, depth, maxDepth);
  }

  lemma {:induction false} ArrayComplete(obj: Json, items: seq<Json>, s: string, depth: int, maxDepth: int)
    requires obj == JArray(items)
    requires depth <= maxDepth && |s| > 100 && KeyedWithin(obj, s, maxDepth - depth)
    ensures FindTranscript(obj, depth, maxDepth).Some?
    decreases obj, 0, |items| + 1
  {
    var j := KeyedItem(obj, items, s, maxDepth - depth);
    ItemsComplete(obj, items, 0, j, s, depth + 1, maxDepth);
    assert FindTranscript(obj, depth, maxDepth) == FindInItems(obj, items, 0, depth + 1, maxDepth);
  }

  lemma {:induction false} ObjectComplete(obj: Json, ms: seq<Member>, s: string, depth: int, maxDepth: int)
    requires obj == JObject(ms)
    requires depth <= maxDepth && |s| > 100 && KeyedWithin(obj, s, maxDepth - depth)
    ensures FindTranscript(obj, depth, maxDepth).Some?
    decreases obj, 0, |ms| + 2
  {
    ObjectStep(obj, ms, depth, maxDepth);
    if OwnKeyHolds(ms, s) {
      OwnHitComplete(ms, s);
    } else {
      var j := KeyedChild(obj, ms, s, maxDepth - depth);
      ChildComplete(obj, ms, j, s, depth, maxDepth);
    }
  }

  /** One level of the search in a dict: its own keys first, then its values. */
  lemma ObjectStep(obj: Json, ms: seq<Member>, depth: int, maxDepth: int)
    requires obj == JObject(ms) && depth <= maxDepth
    ensures FindTranscript(obj, depth, maxDepth) ==
      if OwnHit(ms, TranscriptKeys, 0).Some? then OwnHit(ms, TranscriptKeys, 0)
      else FindInMembers(obj, ms, 0, depth + 1, maxDepth)
  {
  }

  /** A dict value that holds `s` one level down: the loop over the values finds a text. */
  lemma {:induction false} ChildComplete(obj: Json, ms: seq<Member>, j: nat, s: string, depth: int, maxDepth: int)
    requires obj == JObject(ms) && j < |ms|
    requires depth < maxDepth && |s| > 100 && KeyedWithin(ms[j].value, s, maxDepth - depth - 1)
    ensures FindInMembers(obj, ms, 0, depth + 1, maxDepth).Some?
    decreases obj, 0, |ms| + 1
  {
    assert KeyedWithin(ms[j].value, s, maxDepth - (depth + 1));
    MembersComplete(obj, ms, 0, j, s, depth + 1, maxDepth);
  }

  /** A list that holds `s` within `fuel` levels holds it in one of its items. */
  lemma KeyedItem(obj: Json, items: seq<Json>, s: string, fuel: int) returns (j: nat)
    requires obj == JArray(items) && KeyedWithin(obj, s, fuel)
    ensures j < |items| && fuel >= 1 && KeyedWithin(items[j], s, fuel - 1)
  {
    j :| 0 <= j < |items| && KeyedWithin(items[j], s, fuel - 1);
    KeyedFuel(items[j], s, fuel - 1);
  }

  /** Nothing is reachable within a negative number of levels. */
  lemma KeyedFuel(obj: Json, s: string, fuel: int)
    requires KeyedWithin(obj, s, fuel)
    ensures fuel >= 0
  {
  }

  /** A dict that holds `s` within `fuel` levels but not under its own keys holds it in a child. */
  lemma KeyedChild(obj: Json, ms: seq<Member>, s: string, fuel: int) returns (j: nat)
    requires obj == JObject(ms) && KeyedWithin(obj, s, fuel) && !OwnKeyHolds(ms, s)
    ensures j < |ms| && fuel >= 1 && KeyedWithin(ms[j].value, s, fuel - 1)
  {
    j :| 0 <= j < |ms| && KeyedWithin(ms[j].value, s, fuel - 1);
    KeyedFuel(ms[j].value, s, fuel - 1);
  }

  lemma {:induction false} MembersComplete(obj: Json, ms: seq<Member>, i: nat, j: nat, s: string, depth: int, maxDepth: int)
    requires obj == JObject(ms) && i <= j < |ms|
    requires depth <= maxDepth && |s| > 100 && KeyedWithin(ms[j].value, s, maxDepth - depth)
    ensures FindInMembers(obj, ms, i, depth, maxDepth).Some?
    decreases obj, 0, |ms| - i
  {
    if FindTranscript(ms[i].value, depth, maxDepth).None? {
      if i == j {
        FindComplete(ms[j].value, s, depth, maxDepth);
      } else {
        MembersComplete(obj, ms, i + 1, j, s, depth, maxDepth);
      }
    }
  }

  lemma {:induction false} ItemsComplete(obj: Json, items: seq<Json>, i: nat, j: nat, s: string, depth: int, maxDepth: int)
    requires obj == JArray(items) && i <= j < |items|
    requires depth <= maxDepth && |s| > 100 && KeyedWithin(items[j], s, maxDepth - depth)
    ensures FindInItems(obj, items, i, depth, maxDepth).Some?
    decreases obj, 0, |items| - i
  {
    if FindTranscript(items[i], depth, maxDepth).None? {
      if i == j {
        FindComplete(items[j], s, depth, maxDepth);
      } else {
        ItemsComplete(obj, items, i + 1, j, s, depth, maxDepth);
      }
    }
  }

  /**
   * Whatever the search returns is the value of one of the transcript keys
   * of a dict at most `maxDepth - depth` levels below `obj`.
   */
  lemma {:induction false} FindSound(obj: Json, depth: int, maxDepth: int)
    ensures var r := FindTranscript(obj, depth, maxDepth);
      r.Some? ==> KeyedWithin(obj, r.value, maxDepth - depth)
    decreases obj, 1, 0
  {
    if depth <= maxDepth {
      match obj
      case JObject(ms) =>
        ObjectSound(obj, ms, depth, maxDepth);
      case JArray(items) =>
        ArraySound(obj, items, depth, maxDepth);
      case _ =>
    }
  }

  lemma {:induction false} ObjectSound(obj: Json, ms: seq<Member>, depth: int, maxDepth: int)
    requires obj == JObject(ms) && depth <= maxDepth
    ensures var r := FindTranscript(obj, depth, maxDepth);
      r.Some? ==> KeyedWithin(obj, r.value, maxDepth - depth)
    decreases obj, 0, |ms| + 1
  {
    var own := OwnHit(ms, TranscriptKeys, 0);
    var r := FindTranscript(obj, depth, maxDepth);
    assert r == if own.Some? then own else FindInMembers(obj, ms, 0, depth + 1, maxDepth);
    if own.Some? {
      OwnHitSound(ms, TranscriptKeys, 0);
      assert OwnKeyHolds(ms, r.value);
    } else if r.Some? {
      var k := MembersSound(obj, ms, 0, depth + 1, maxDepth);
      KeyedFuel(ms[k].value, r.value, maxDepth - depth - 1);
      assert KeyedWithin(ms[k].value, r.value, maxDepth - depth - 1);
    }
  }

  lemma {:induction false} ArraySound(obj: Json, items: seq<Json>, depth: int, maxDepth: int)
    requires obj == JArray(items) && depth <= maxDepth
    ensures var r := FindTranscript(obj, depth, maxDepth);
      r.Some? ==> KeyedWithin(obj, r.value, maxDepth - depth)
    decreases obj, 0, |items| + 1
  {
    var r := FindTranscript(obj, depth, maxDepth);
    assert r == FindInItems(obj, items, 0, depth + 1, maxDepth);
    if r.Some? {
      var k := ItemsSound(obj, items, 0, depth + 1, maxDepth);
      KeyedFuel(items[k], r.value, maxDepth - depth - 1);
      assert KeyedWithin(items[k], r.value, maxDepth - depth - 1);
    }
  }

  lemma {:induction false} MembersSound(obj: Json, ms: seq<Member>, i: nat, depth: int, maxDepth: int) returns (k: nat)
    requires obj == JObject(ms)
    ensures var r := FindInMembers(obj, ms, i, depth, maxDepth);
      r.Some? ==> i <= k < |ms| && KeyedWithin(ms[k].value, r.value, maxDepth - depth)
    decreases obj, 0, |ms| - i
  {
    k := i;
    if i < |ms| {
      var r := FindTranscript(ms[i].value, depth, maxDepth);
      if r.Some? && r.value != "" {
        assert FindInMembers(obj, ms, i, depth, maxDepth) == r;
        FindSound(ms[i].value, depth, maxDepth);
      } else {
        assert FindInMembers(obj, ms, i, depth, maxDepth) == FindInMembers(obj, ms, i + 1, depth, maxDepth);
        k := MembersSound(obj, ms, i + 1, depth, maxDepth);
      }
    }
  }

  lemma {:induction false} ItemsSound(obj: Json, items: seq<Json>, i: nat, depth: int, maxDepth: int) returns (k: nat)
    requires obj == JArray(items)
    ensures var r := FindInItems(obj, items, i, depth, maxDepth);
      r.Some? ==> i <= k < |items| && KeyedWithin(items[k], r.value, maxDepth - depth)
    decreases obj, 0, |items| - i
  {
    k := i;
    if i < |items| {
      var r := FindTranscript(items[i], depth, maxDepth);
      if r.Some? && r.value != "" {
        assert FindInItems(obj, items, i, depth, maxDepth) == r;
        FindSound(items[i], depth, maxDepth);
      } else {
        assert FindInItems(obj, items, i, depth, maxDepth) == FindInItems(obj, items, i + 1, depth, maxDepth);
        k := ItemsSound(obj, items, i + 1, depth, maxDepth);
      }
    }
  }
}
