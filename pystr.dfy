/** The `None`-or-value results that the Python code returns. */
module Options {
  datatype Option<+T> = None | Some(value: T)

  /** How many of the results hold a value: a success count. */
  function CountSome<T>(xs: seq<Option<T>>): (c: nat)
    ensures c <= |xs|
  {
    if xs == [] then 0
    else CountSome(xs[..|xs| - 1]) + (if xs[|xs| - 1].Some? then 1 else 0)
  }

  /** One more result adds one to the count exactly when it holds a value. */
  lemma CountSomeSnoc<T>(xs: seq<Option<T>>, x: Option<T>)
    ensures CountSome(xs + [x]) == CountSome(xs) + (if x.Some? then 1 else 0)
  {
    assert (xs + [x])[..|xs|] == xs;
  }
}

/**
 * The Python `str` operations the scripts rely on, over `string`: a Dafny
 * `string` is a sequence of Unicode scalar values, as a Python 3 `str` is a
 * sequence of code points, so `len` is `|s|` and slicing is sequence slicing.
 */
module PyStr {

  /** `c.isspace()`: the characters that `split()`, `strip()` and the regex class `\s` treat as whitespace. */
  predicate IsSpace(c: char) {
    || c == ' '
    || ('\t' <= c <= '\r')
    || ('\U{1C}' <= c <= '\U{1F}')
    || c == '\U{85}' || c == '\U{A0}' || c == '\U{1680}'
    || ('\U{2000}' <= c <= '\U{200A}')
    || c == '\U{2028}' || c == '\U{2029}' || c == '\U{202F}' || c == '\U{205F}' || c == '\U{3000}'
  }

  predicate NoSpace(s: string) {
    forall i :: 0 <= i < |s| ==> !IsSpace(s[i])
  }

  /** Every character of `s` from index `lo` up to (not including) `hi` is whitespace. */
  predicate SpaceBetween(s: string, lo: int, hi: int)
    requires 0 <= lo <= hi <= |s|
  {
    forall i :: lo <= i < hi ==> IsSpace(s[i])
  }

  /** Every character of `s` satisfies `p`. */
  predicate AllChars(s: string, p: char -> bool) {
    forall i :: 0 <= i < |s| ==> p(s[i])
  }

  /** The number of whitespace characters that start `s`: what `lstrip()` removes. */
  function LeadSpace(s: string): (n: nat)
    ensures n <= |s| && SpaceBetween(s, 0, n)
    ensures n < |s| ==> !IsSpace(s[n])
  {
    if s == [] || !IsSpace(s[0]) then 0 else 1 + LeadSpace(s[1..])
  }

  /** The number of whitespace characters that end `s`: what `rstrip()` removes. */
  function TrailSpace(s: string): (n: nat)
    ensures n <= |s| && SpaceBetween(s, |s| - n, |s|)
    ensures n < |s| ==> !IsSpace(s[|s| - n - 1])
  {
    if s == [] || !IsSpace(s[|s| - 1]) then 0 else 1 + TrailSpace(s[..|s| - 1])
  }

  /** No whitespace at either end. */
  predicate Trimmed(s: string) {
    s == [] || (!IsSpace(s[0]) && !IsSpace(s[|s| - 1]))
  }

  /**
   * `s.strip()`: the slice of `s` left once the whitespace at both ends is
   * removed; everything removed is whitespace.
   */
  function Strip(s: string): (r: string)
    ensures Trimmed(r)
    ensures var lead := LeadSpace(s); lead + |r| <= |s| && r == s[lead..lead + |r|]
    ensures SpaceBetween(s, 0, LeadSpace(s)) && SpaceBetween(s, LeadSpace(s) + |r|, |s|)
  {
    var lead := LeadSpace(s);
    if lead == |s| then []
    else
      var trail := TrailSpace(s);
      assert lead < |s| - trail;
      s[lead..|s| - trail]
  }

  /** A string with no whitespace at either end is its own strip. */
  lemma StripOfTrimmed(s: string)
    requires Trimmed(s)
    ensures Strip(s) == s
  {
  }

  /** The length of the run of non-whitespace characters that starts `s`. */
  function WordLen(s: string): (n: nat)
    ensures n <= |s|
    ensures forall i :: 0 <= i < n ==> !IsSpace(s[i])
    ensures n < |s| ==> IsSpace(s[n])
  {
    if s == [] || IsSpace(s[0]) then 0 else 1 + WordLen(s[1..])
  }

  /** A list of non-empty strings none of which holds whitespace: what `split()` can return. */
  predicate IsWordList(ws: seq<string>) {
    forall k :: 0 <= k < |ws| ==> ws[k] != [] && NoSpace(ws[k])
  }

  /** `s.split()`: the maximal runs of non-whitespace characters of `s`, in order. */
  function Words(s: string): (ws: seq<string>)
    ensures IsWordList(ws)
    decreases |s|
  {
    if s == [] then []
    else if IsSpace(s[0]) then Words(s[1..])
    else
      var n := WordLen(s);
      [s[..n]] + Words(s[n..])
  }

  /** `sep.join(xs)` */
  function Join(sep: string, xs: seq<string>): string
    decreases |xs|
  {
    if xs == [] then ""
    else if |xs| == 1 then xs[0]
    else xs[0] + sep + Join(sep, xs[1..])
  }

  /** `' '.join(xs)` */
  function JoinSpace(xs: seq<string>): string {
    Join(" ", xs)
  }

  /**
   * What `' '.join(s.split())` produces: no whitespace other than single
   * spaces between words, and none at either end.
   */
  predicate Normalized(s: string) {
    && (forall i :: 0 <= i < |s| && IsSpace(s[i]) ==> s[i] == ' ')
    && (s != [] ==> s[0] != ' ' && s[|s| - 1] != ' ')
    && (forall i :: 0 <= i < |s| - 1 && s[i] == ' ' ==> s[i + 1] != ' ')
  }

  /** `' '.join(s.split())`: the whitespace collapse. */
  function Collapse(s: string): (r: string)
    ensures Normalized(r)
    ensures Words(r) == Words(s)
  {
    var ws := Words(s);
    JoinWordsNormalized(ws);
    WordsOfJoin(ws);
    JoinSpace(ws)
  }

  /** After a space, the rest of a normalized string is normalized and starts with a non-space. */
  lemma NormalizedTail(s: string, n: nat)
    requires Normalized(s) && n < |s| && s[n] == ' '
    ensures n + 1 < |s|
    ensures Normalized(s[n + 1..]) && !IsSpace(s[n + 1])
  {
    var t := s[n + 1..];
    forall i | 0 <= i < |t| && IsSpace(t[i]) ensures t[i] == ' ' {
      assert t[i] == s[n + 1 + i];
    }
    forall i | 0 <= i < |t| - 1 && t[i] == ' ' ensures t[i + 1] != ' ' {
      assert t[i] == s[n + 1 + i] && t[i + 1] == s[n + 2 + i];
    }
    assert t[|t| - 1] == s[|s| - 1];
  }

  /** A normalized string is its own collapse; so collapsing twice changes nothing. */
  lemma NormalizedIsCollapsed(s: string)
    requires Normalized(s)
    ensures Collapse(s) == s
  {
    JoinWordsOfNormalized(s);
  }

  lemma {:induction false} JoinWordsOfNormalized(s: string)
    requires Normalized(s)
    ensures JoinSpace(Words(s)) == s
    decreases |s|, 1
  {
    if s != [] {
      assert !IsSpace(s[0]);
      if WordLen(s) == |s| {
        WordsOfWord(s);
      } else {
        JoinWordsOfNormalizedStep(s);
      }
    }
  }

  /** The case of a normalized string with more than one word. */
  lemma {:induction false} JoinWordsOfNormalizedStep(s: string)
    requires Normalized(s) && s != [] && WordLen(s) < |s|
    ensures JoinSpace(Words(s)) == s
    decreases |s|, 0
  {
    var n := WordLen(s);
    NormalizedTail(s, n);
    var t := s[n + 1..];
    JoinWordsOfNormalized(t);
    assert Words(s) == [s[..n]] + Words(t) by {
      assert !IsSpace(s[0]);
      assert s[n..][1..] == t;
      assert Words(s[n..]) == Words(t);
    }
    var wt := Words(t);
    assert wt != [] by {
      assert t[0] == s[n + 1];
    }
    assert JoinSpace(Words(s)) == s[..n] + " " + JoinSpace(wt) by {
      assert ([s[..n]] + wt)[1..] == wt;
    }
    assert s == s[..n] + " " + t;
  }

  lemma CollapseIdempotent(s: string)
    ensures Collapse(Collapse(s)) == Collapse(s)
  {
    NormalizedIsCollapsed(Collapse(s));
  }

  /** The join of a word list is normalized and starts with the first word's first character. */
  lemma {:induction false} JoinWordsNormalized(ws: seq<string>)
    requires IsWordList(ws)
    ensures Normalized(JoinSpace(ws))
    ensures ws != [] ==> JoinSpace(ws) != [] && JoinSpace(ws)[0] == ws[0][0]
    decreases |ws|
  {
    if |ws| == 1 {
      assert JoinSpace(ws) == ws[0];
    } else if |ws| > 1 {
      var w, rest := ws[0], JoinSpace(ws[1..]);
      JoinWordsNormalized(ws[1..]);
      var s := w + " " + rest;
      assert JoinSpace(ws) == s;
      assert !IsSpace(rest[0]);
      forall i | 0 <= i < |s| && IsSpace(s[i]) ensures s[i] == ' ' {
        if i > |w| {
          assert s[i] == rest[i - |w| - 1];
        }
      }
      forall i | 0 <= i < |s| - 1 && s[i] == ' ' ensures s[i + 1] != ' ' {
        if i == |w| {
          assert s[i + 1] == rest[0];
        } else if i > |w| {
          assert s[i] == rest[i - |w| - 1] && s[i + 1] == rest[i - |w|];
        }
      }
      assert s[|s| - 1] == rest[|rest| - 1];
    }
  }

  lemma {:induction false} WordLenPrefix(w: string, y: string)
    requires NoSpace(w) && (y == [] || IsSpace(y[0]))
    ensures WordLen(w + y) == |w|
    decreases |w|
  {
    if w != [] {
      assert (w + y)[1..] == w[1..] + y;
      WordLenPrefix(w[1..], y);
    }
  }

  lemma WordsOfWord(w: string)
    requires w != [] && NoSpace(w)
    ensures Words(w) == [w]
  {
    WordLenPrefix(w, []);
    assert w + [] == w;
  }

  lemma WordsOfWordThenSpace(w: string, t: string)
    requires w != [] && NoSpace(w)
    ensures Words(w + " " + t) == [w] + Words(t)
  {
    var s := w + " " + t;
    assert s == w + (" " + t);
    WordLenPrefix(w, " " + t);
    assert s[..|w|] == w;
    assert s[|w|..] == " " + t;
    assert (" " + t)[1..] == t;
  }

  /** Splitting the join of a word list gives the list back. */
  lemma {:induction false} WordsOfJoin(ws: seq<string>)
    requires IsWordList(ws)
    ensures Words(JoinSpace(ws)) == ws
    decreases |ws|
  {
    if |ws| == 1 {
      WordsOfWord(ws[0]);
    } else if |ws| > 1 {
      WordsOfWordThenSpace(ws[0], JoinSpace(ws[1..]));
      WordsOfJoin(ws[1..]);
    }
  }

  lemma {:induction false} WordLenConcat(x: string, y: string)
    requires WordLen(x) < |x| || (y != [] && IsSpace(y[0]))
    ensures WordLen(x + y) == WordLen(x)
    decreases |x|
  {
    if x != [] && !IsSpace(x[0]) {
      assert (x + y)[1..] == x[1..] + y;
      WordLenConcat(x[1..], y);
    }
  }

  /** A single space between two strings separates their words. */
  lemma {:induction false} WordsConcatSpace(a: string, b: string)
    ensures Words(a + " " + b) == Words(a) + Words(b)
    decreases |a|, 1
  {
    if a == [] {
      assert (a + " " + b)[1..] == b;
    } else if IsSpace(a[0]) {
      WordsConcatSpaceLead(a, b);
    } else {
      WordsConcatSpaceWord(a, b);
    }
  }

  lemma {:induction false} WordsConcatSpaceLead(a: string, b: string)
    requires a != [] && IsSpace(a[0])
    ensures Words(a + " " + b) == Words(a) + Words(b)
    decreases |a|, 0
  {
    var s := a + " " + b;
    assert s[1..] == a[1..] + " " + b;
    WordsConcatSpace(a[1..], b);
    assert Words(s) == Words(s[1..]);
    assert Words(a) == Words(a[1..]);
  }

  /** The words of a string that starts with a non-space: its first run, then the words of the rest. */
  lemma WordsOfWordStart(s: string)
    requires s != [] && !IsSpace(s[0])
    ensures Words(s) == [s[..WordLen(s)]] + Words(s[WordLen(s)..])
  {
  }

  lemma {:induction false} WordsConcatSpaceWord(a: string, b: string)
    requires a != [] && !IsSpace(a[0])
    ensures Words(a + " " + b) == Words(a) + Words(b)
    decreases |a|, 0
  {
    var s := a + " " + b;
    var n := WordLen(a);
    WordLenSpaceSuffix(a, b);
    SpaceSuffixSlices(a, b, n);
    WordsOfWordStart(s);
    WordsOfWordStart(a);
    WordsConcatSpace(a[n..], b);
    AppendAssoc([a[..n]], Words(a[n..]), Words(b));
  }

  lemma WordLenSpaceSuffix(a: string, b: string)
    ensures WordLen(a + " " + b) == WordLen(a)
  {
    assert a + " " + b == a + (" " + b);
    WordLenConcat(a, " " + b);
  }

  lemma SpaceSuffixSlices(a: string, b: string, n: nat)
    requires n <= |a|
    ensures (a + " " + b)[..n] == a[..n] && (a + " " + b)[n..] == a[n..] + " " + b
  {
  }

  lemma AppendAssoc<T>(x: seq<T>, y: seq<T>, z: seq<T>)
    ensures x + (y + z) == (x + y) + z
  {
  }

  /** The words of every string of `xs`, in order. */
  function AllWords(xs: seq<string>): seq<string>
    decreases |xs|
  {
    if xs == [] then [] else Words(xs[0]) + AllWords(xs[1..])
  }

  /** Joining with single spaces neither merges nor splits words. */
  lemma {:induction false} WordsOfJoinSpace(xs: seq<string>)
    ensures Words(JoinSpace(xs)) == AllWords(xs)
    decreases |xs|
  {
    if xs == [] {
    } else if |xs| == 1 {
      assert AllWords(xs[1..]) == [];
    } else {
      WordsConcatSpace(xs[0], JoinSpace(xs[1..]));
      WordsOfJoinSpace(xs[1..]);
    }
  }

  lemma {:induction false} JoinAllChars(sep: string, xs: seq<string>, p: char -> bool)
    requires AllChars(sep, p)
    requires forall k :: 0 <= k < |xs| ==> AllChars(xs[k], p)
    ensures AllChars(Join(sep, xs), p)
    decreases |xs|
  {
    if |xs| > 1 {
      JoinAllChars(sep, xs[1..], p);
      var r := Join(sep, xs[1..]);
      var s := xs[0] + sep + r;
      forall i | 0 <= i < |s| ensures p(s[i]) {
        if i < |xs[0]| {
          assert s[i] == xs[0][i];
        } else if i < |xs[0]| + |sep| {
          assert s[i] == sep[i - |xs[0]|];
        } else {
          assert s[i] == r[i - |xs[0]| - |sep|];
        }
      }
    }
  }

  lemma {:induction false} WordsAllChars(s: string, p: char -> bool)
    requires AllChars(s, p)
    ensures forall k :: 0 <= k < |Words(s)| ==> AllChars(Words(s)[k], p)
    decreases |s|
  {
    if s != [] {
      if IsSpace(s[0]) {
        WordsAllChars(s[1..], p);
      } else {
        var n := WordLen(s);
        WordsAllChars(s[n..], p);
        assert AllChars(s[..n], p);
      }
    }
  }

  /** Collapsing keeps only characters of the input and spaces. */
  lemma CollapseAllChars(s: string, p: char -> bool)
    requires AllChars(s, p) && p(' ')
    ensures AllChars(Collapse(s), p)
  {
    WordsAllChars(s, p);
    JoinAllChars(" ", Words(s), p);
  }

  /** `s.startswith(prefix)` */
  predicate StartsWith(s: string, prefix: string) {
    |prefix| <= |s| && s[..|prefix|] == prefix
  }

  /** `needle in s` */
  predicate Contains(s: string, needle: string)
    decreases |s|
  {
    StartsWith(s, needle) || (s != [] && Contains(s[1..], needle))
  }

  /** `s.isdigit()`, for the ASCII digits. */
  predicate IsDigits(s: string) {
    s != [] && forall i :: 0 <= i < |s| ==> '0' <= s[i] <= '9'
  }

  /** `s.lower()`, for the ASCII letters. */
  function Lower(s: string): (r: string)
    ensures |r| == |s|
    ensures forall i :: 0 <= i < |s| ==> r[i] == (if 'A' <= s[i] <= 'Z' then (s[i] as int + 32) as char else s[i])
  {
    seq(|s|, i requires 0 <= i < |s| => if 'A' <= s[i] <= 'Z' then (s[i] as int + 32) as char else s[i])
  }

  /** `s.replace(target, replacement)` for one-character arguments. */
  function ReplaceChar(s: string, target: char, replacement: char): (r: string)
    ensures |r| == |s|
    ensures forall i :: 0 <= i < |s| ==> r[i] == (if s[i] == target then replacement else s[i])
  {
    seq(|s|, i requires 0 <= i < |s| => if s[i] == target then replacement else s[i])
  }

  /** Replacing one character by another changes nothing about the presence of a third. */
  lemma ReplaceCharKeeps(s: string, target: char, replacement: char, c: char)
    requires c != target && c != replacement
    ensures c in ReplaceChar(s, target, replacement) <==> c in s
  {
    var r := ReplaceChar(s, target, replacement);
    if c in r {
      var i :| 0 <= i < |r| && r[i] == c;
      assert s[i] == c;
    }
    if c in s {
      var i :| 0 <= i < |s| && s[i] == c;
      assert r[i] == c;
    }
  }

  /** `s[:n]` for `n >= 0` */
  function Take(s: string, n: nat): (r: string)
    ensures |r| == if n < |s| then n else |s|
    ensures r == s[..|r|]
  {
    if n < |s| then s[..n] else s
  }

  /** The length of the run of characters other than `sep` that starts `s`. */
  function SpanWithout(s: string, sep: char): (n: nat)
    ensures n <= |s| && sep !in s[..n]
    ensures n < |s| ==> s[n] == sep
  {
    if s == [] || s[0] == sep then 0
    else
      var n := 1 + SpanWithout(s[1..], sep);
      assert s[..n] == [s[0]] + s[1..][..n - 1];
      n
  }

  /** `s.split(sep)` for a one-character separator. */
  function SplitOn(s: string, sep: char): (parts: seq<string>)
    ensures |parts| >= 1
    ensures forall k :: 0 <= k < |parts| ==> sep !in parts[k]
    decreases |s|
  {
    var n := SpanWithout(s, sep);
    if n == |s| then [s] else [s[..n]] + SplitOn(s[n + 1..], sep)
  }

  /** Joining the pieces of a split with the separator gives back the string. */
  lemma {:induction false} JoinSplitOn(s: string, sep: char)
    ensures Join([sep], SplitOn(s, sep)) == s
    decreases |s|
  {
    var n := SpanWithout(s, sep);
    if n < |s| {
      var rest := SplitOn(s[n + 1..], sep);
      JoinSplitOn(s[n + 1..], sep);
      var parts := [s[..n]] + rest;
      assert SplitOn(s, sep) == parts;
      assert parts[1..] == rest;
      assert Join([sep], parts) == s[..n] + [sep] + Join([sep], rest);
      assert s == s[..n] + [sep] + s[n + 1..];
    } else {
      assert SplitOn(s, sep) == [s];
    }
  }
}
