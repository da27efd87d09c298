/** The string operations of the Kotlin and Java standard libraries that the
    service relies on: prefix tests, `substringAfter`, literal `split`,
    `trim` and the `Bearer\s+` regular-expression replacement. */
module Text {

  predicate StartsWith(s: string, prefix: string) {
    |prefix| <= |s| && s[..|prefix|] == prefix
  }

  /** Kotlin's `Char.isWhitespace` on the JVM: Java's `isWhitespace` or `isSpaceChar`. */
  predicate IsWhitespace(c: char) {
    || c == ' '
    || '\t' <= c <= '\r'
    || '\U{1C}' <= c <= '\U{1F}'
    || c == '\U{A0}'
    || c == '\U{1680}'
    || '\U{2000}' <= c <= '\U{200A}'
    || c == '\U{2028}' || c == '\U{2029}'
    || c == '\U{202F}' || c == '\U{205F}' || c == '\U{3000}'
  }

  /** The regular-expression class `\s` of `java.util.regex`: `[ \t\n\x0B\f\r]`. */
  predicate IsRegexSpace(c: char) {
    c == ' ' || '\t' <= c <= '\r'
  }

  predicate AllWhitespace(s: string) {
    forall i :: 0 <= i < |s| ==> IsWhitespace(s[i])
  }

  /** Index of the first `c` in `s`, or `|s|` when there is none. */
  function IndexOf(s: string, c: char): (i: nat)
    ensures i <= |s|
    ensures i < |s| ==> s[i] == c
    ensures c !in s[..i]
    ensures i == |s| <==> c !in s
  {
    if s == [] then 0
    else if s[0] == c then 0
    else 1 + IndexOf(s[1..], c)
  }

  /** Kotlin `substringAfter(c)`: what follows the first `c`, or all of `s` when absent. */
  function SubstringAfter(s: string, c: char): (r: string)
    ensures c in s ==> s == s[..IndexOf(s, c)] + [c] + r
    ensures c !in s ==> r == s
  {
    var i := IndexOf(s, c);
    if i < |s| then s[i + 1..] else s
  }

  /** Kotlin `split(sep)` with a one-character literal delimiter: every
      delimiter separates two fields, so the result is never empty and keeps
      empty fields, leading and trailing ones included. */
  function Split(s: string, sep: char): (parts: seq<string>)
    ensures |parts| >= 1
    ensures forall k :: 0 <= k < |parts| ==> sep !in parts[k]
    decreases |s|
  {
    var i := IndexOf(s, sep);
    if i == |s| then [s] else [s[..i]] + Split(s[i + 1..], sep)
  }

  /** The inverse of `Split`: the fields joined with the delimiter between them. */
  function Join(parts: seq<string>, sep: char): string
    requires |parts| >= 1
  {
    if |parts| == 1 then parts[0] else parts[0] + [sep] + Join(parts[1..], sep)
  }

  lemma {:induction false} JoinSplit(s: string, sep: char)
    ensures Join(Split(s, sep), sep) == s
    decreases |s|
  {
    var i := IndexOf(s, sep);
    if i < |s| {
      var parts := Split(s, sep);
      assert parts == [s[..i]] + Split(s[i + 1..], sep);
      assert parts[1..] == Split(s[i + 1..], sep);
      calc {
        Join(parts, sep);
        s[..i] + [sep] + Join(Split(s[i + 1..], sep), sep);
        { JoinSplit(s[i + 1..], sep); }
        s[..i] + [sep] + s[i + 1..];
      }
      assert s == s[..i] + [sep] + s[i + 1..];
    }
  }

  lemma {:induction false} SplitJoin(parts: seq<string>, sep: char)
    requires |parts| >= 1
    requires forall k :: 0 <= k < |parts| ==> sep !in parts[k]
    ensures Split(Join(parts, sep), sep) == parts
  {
    if |parts| == 1 {
      assert sep !in parts[0];
    } else {
      assert sep !in parts[0];
      SplitJoin(parts[1..], sep);
      SplitAfterField(parts[0], sep, Join(parts[1..], sep));
      assert parts == [parts[0]] + parts[1..];
    }
  }

  /** A field without the delimiter, the delimiter, then the rest: `Split`
      yields the field and then the fields of the rest. */
  lemma SplitAfterField(a: string, c: char, b: string)
    requires c !in a
    ensures Split(a + [c] + b, c) == [a] + Split(b, c)
  {
    var s := a + [c] + b;
    IndexOfPrefix(a, c, b);
    assert s[..|a|] == a;
    assert s[|a| + 1..] == b;
  }

  lemma IndexOfPrefix(a: string, c: char, b: string)
    requires c !in a
    ensures IndexOf(a + [c] + b, c) == |a|
  {
    var s := a + [c] + b;
    assert s[..|a|] == a;
    assert s[|a|] == c;
  }

  /** Number of leading whitespace characters. */
  function LeadingWhitespace(s: string): (n: nat)
    ensures n <= |s|
    ensures forall k :: 0 <= k < n ==> IsWhitespace(s[k])
    ensures n < |s| ==> !IsWhitespace(s[n])
  {
    if s == [] || !IsWhitespace(s[0]) then 0
    else 1 + LeadingWhitespace(s[1..])
  }

  /** Number of trailing whitespace characters. */
  function TrailingWhitespace(s: string): (n: nat)
    ensures n <= |s|
    ensures forall k :: |s| - n <= k < |s| ==> IsWhitespace(s[k])
    ensures n < |s| ==> !IsWhitespace(s[|s| - n - 1])
    decreases |s|
  {
    if s == [] || !IsWhitespace(s[|s| - 1]) then 0
    else 1 + TrailingWhitespace(s[..|s| - 1])
  }

  /** Kotlin `trim()`: `s` without its leading and trailing whitespace. */
  function Trim(s: string): (r: string)
    ensures r == [] || (!IsWhitespace(r[0]) && !IsWhitespace(r[|r| - 1]))
    ensures exists i :: TrimmedAt(s, r, i)
  {
    var a := LeadingWhitespace(s);
    var rest := s[a..];
    var b := TrailingWhitespace(rest);
    var r := rest[..|rest| - b];
    assert s[a..a + |r|] == r;
    assert s[a + |r|..] == rest[|rest| - b..];
    assert TrimmedAt(s, r, a);
    r
  }

  /** `r` sits at `i` in `s`, with only whitespace around it. */
  ghost predicate TrimmedAt(s: string, r: string, i: int) {
    0 <= i && i + |r| <= |s| && s[i..i + |r|] == r && AllWhitespace(s[..i]) && AllWhitespace(s[i + |r|..])
  }

  lemma {:induction false} TrimIdempotent(s: string)
    ensures Trim(Trim(s)) == Trim(s)
  {
    var r := Trim(s);
    assert LeadingWhitespace(r) == 0;
    assert r[0..] == r;
    assert TrailingWhitespace(r) == 0;
    assert r[..|r|] == r;
  }

  /** `Trim` is the only such slice: text with no whitespace at either end,
      surrounded by nothing but whitespace, is the trim. */
  lemma TrimUnique(s: string, r: string, i: int)
    requires TrimmedAt(s, r, i)
    requires r == [] || (!IsWhitespace(r[0]) && !IsWhitespace(r[|r| - 1]))
    ensures Trim(s) == r
  {
    assert forall k :: 0 <= k < i ==> IsWhitespace(s[k]) by {
      forall k | 0 <= k < i ensures IsWhitespace(s[k]) {
        assert s[..i][k] == s[k];
      }
    }
    assert forall k :: i + |r| <= k < |s| ==> IsWhitespace(s[k]) by {
      forall k | i + |r| <= k < |s| ensures IsWhitespace(s[k]) {
        assert s[i + |r|..][k - i - |r|] == s[k];
      }
    }
    var a := LeadingWhitespace(s);
    if r == [] {
      assert a == |s|;
    } else {
      assert s[i] == r[0] && s[i + |r| - 1] == r[|r| - 1];
      assert a == i;
      var rest := s[i..];
      var b := TrailingWhitespace(rest);
      assert rest[|r| - 1] == r[|r| - 1];
      assert forall k :: |r| <= k < |rest| ==> IsWhitespace(rest[k]);
      assert b == |rest| - |r|;
      assert rest[..|r|] == r;
    }
  }

  /** A word with no whitespace at its ends, then any text: the trim starts
      with the word, and trimming what follows the word gives the trim of
      the text. */
  lemma TrimAfterWord(word: string, text: string)
    requires |word| >= 1 && !IsWhitespace(word[0]) && !IsWhitespace(word[|word| - 1])
    ensures StartsWith(Trim(word + text), word)
    ensures Trim(Trim(word + text)[|word|..]) == Trim(text)
  {
    var m := TrimOfWord(word, text);
    assert (word + text[..m])[..|word|] == word;
    assert (word + text[..m])[|word|..] == text[..m];
    TrimDropsTrailing(text, m);
  }

  /** The trim of a word and a text keeps the word and cuts the text at `m`,
      before nothing but whitespace. */
  lemma TrimOfWord(word: string, text: string) returns (m: nat)
    requires |word| >= 1 && !IsWhitespace(word[0]) && !IsWhitespace(word[|word| - 1])
    ensures m <= |text| && Trim(word + text) == word + text[..m]
    ensures forall k :: m <= k < |text| ==> IsWhitespace(text[k])
  {
    var s := word + text;
    var r := Trim(s);
    var i :| TrimmedAt(s, r, i);
    assert s[0] == word[0] && s[|word| - 1] == word[|word| - 1];
    m := |r| - |word|;
    assert r == s[..|r|];
    assert s[..|r|] == word + text[..m];
    forall k | m <= k < |text| ensures IsWhitespace(text[k]) {
      assert s[|r|..][k - m] == text[k];
    }
  }

  /** Whitespace after the cut does not change the trim. */
  lemma TrimDropsTrailing(text: string, m: nat)
    requires m <= |text|
    requires forall k :: m <= k < |text| ==> IsWhitespace(text[k])
    ensures Trim(text[..m]) == Trim(text)
  {
    var rest := text[..m];
    var t := Trim(text);
    var j :| TrimmedAt(text, t, j);
    assert forall k :: 0 <= k < j ==> IsWhitespace(text[k]) by {
      forall k | 0 <= k < j ensures IsWhitespace(text[k]) {
        assert text[..j][k] == text[k];
      }
    }
    assert forall k :: j + |t| <= k < |text| ==> IsWhitespace(text[k]) by {
      forall k | j + |t| <= k < |text| ensures IsWhitespace(text[k]) {
        assert text[j + |t|..][k - j - |t|] == text[k];
      }
    }
    if t == [] {
      assert TrimmedAt(rest, [], 0);
      TrimUnique(rest, [], 0);
    } else {
      assert text[j + |t| - 1] == t[|t| - 1];
      assert j + |t| <= m;
      assert rest[j..j + |t|] == t;
      assert rest[..j] == text[..j];
      assert TrimmedAt(rest, t, j);
      TrimUnique(rest, t, j);
    }
  }

  /** Number of leading characters of `\s`. */
  function LeadingRegexSpace(s: string): (n: nat)
    ensures n <= |s|
    ensures forall k :: 0 <= k < n ==> IsRegexSpace(s[k])
    ensures n < |s| ==> !IsRegexSpace(s[n])
  {
    if s == [] || !IsRegexSpace(s[0]) then 0 else 1 + LeadingRegexSpace(s[1..])
  }

  /** `Bearer\s+` matches at the start of `s`. */
  predicate BearerAt(s: string) {
    StartsWith(s, "Bearer") && |s| > 6 && IsRegexSpace(s[6])
  }

  predicate NoRegexSpace(s: string) {
    forall k :: 0 <= k < |s| ==> !IsRegexSpace(s[k])
  }

  /** Fields without `\s` joined by a delimiter that is not `\s` hold no `\s`. */
  lemma {:induction false} JoinNoRegexSpace(parts: seq<string>, sep: char)
    requires |parts| >= 1 && !IsRegexSpace(sep)
    requires forall k :: 0 <= k < |parts| ==> NoRegexSpace(parts[k])
    ensures NoRegexSpace(Join(parts, sep))
  {
    if |parts| > 1 {
      assert NoRegexSpace(parts[0]);
      JoinNoRegexSpace(parts[1..], sep);
      var rest := Join(parts[1..], sep);
      assert Join(parts, sep) == parts[0] + [sep] + rest;
      forall k | 0 <= k < |Join(parts, sep)| ensures !IsRegexSpace(Join(parts, sep)[k]) {
        if k < |parts[0]| {
          assert Join(parts, sep)[k] == parts[0][k];
        } else if k > |parts[0]| {
          assert Join(parts, sep)[k] == rest[k - |parts[0]| - 1];
        }
      }
    }
  }

  /** `s.replace(Regex("Bearer\\s+"), "")`: every leftmost, non-overlapping
      match of `Bearer` followed by a greedy run of `\s` is removed. */
  function StripBearer(s: string): (r: string)
    ensures |r| <= |s|
    decreases |s|
  {
    if s == [] then []
    else if BearerAt(s) then StripBearer(s[6 + LeadingRegexSpace(s[6..])..])
    else [s[0]] + StripBearer(s[1..])
  }

  /** A string with no `\s` character has nothing the pattern can match. */
  lemma {:induction false} StripBearerWithoutSpace(s: string)
    requires NoRegexSpace(s)
    ensures StripBearer(s) == s
    decreases |s|
  {
    if s != [] {
      assert !BearerAt(s);
      StripBearerWithoutSpace(s[1..]);
      assert s == [s[0]] + s[1..];
    }
  }

  /** Text without `\s` before a comma holds no match, not even one that
      would run into the comma: it is kept, and the removal goes on after it. */
  lemma {:induction false} StripBearerBeforeComma(a: string, rest: string)
    requires NoRegexSpace(a)
    ensures StripBearer(a + [','] + rest) == a + [','] + StripBearer(rest)
    decreases |a|
  {
    var s := a + [','] + rest;
    NoBearerBeforeComma(a, rest);
    StripBearerStep(s);
    if a == [] {
      assert s[1..] == rest;
    } else {
      var tail := a[1..];
      calc {
        StripBearer(s);
        [a[0]] + StripBearer(s[1..]);
        { assert s[1..] == tail + [','] + rest; }
        [a[0]] + StripBearer(tail + [','] + rest);
        { StripBearerBeforeComma(tail, rest); }
        [a[0]] + (tail + [','] + StripBearer(rest));
        { assert a == [a[0]] + tail; }
        a + [','] + StripBearer(rest);
      }
    }
  }

  /** Where no match starts, the first character is kept. */
  lemma StripBearerStep(s: string)
    requires s != [] && !BearerAt(s)
    ensures StripBearer(s) == [s[0]] + StripBearer(s[1..])
  {
  }

  lemma NoBearerBeforeComma(a: string, rest: string)
    requires NoRegexSpace(a)
    ensures !BearerAt(a + [','] + rest)
  {
    var s := a + [','] + rest;
    if |a| < 6 {
      assert s[|a|] == ',';
    } else if |a| == 6 {
      assert s[6] == ',';
    } else {
      assert s[6] == a[6];
    }
  }

  /** Each field with its own `Bearer ` scheme. */
  function Schemed(ts: seq<string>): (r: seq<string>)
    ensures |r| == |ts|
    ensures forall k :: 0 <= k < |ts| ==> r[k] == "Bearer " + ts[k]
  {
    if ts == [] then [] else ["Bearer " + ts[0]] + Schemed(ts[1..])
  }

  /** Removing the schemes from `Bearer t1,Bearer t2,…` leaves `t1,t2,…`. */
  lemma {:induction false} StripSchemedJoin(ts: seq<string>)
    requires |ts| >= 1
    requires forall k :: 0 <= k < |ts| ==> NoRegexSpace(ts[k])
    ensures StripBearer(Join(Schemed(ts), ',')) == Join(ts, ',')
  {
    var t := ts[0];
    assert NoRegexSpace(t);
    if |ts| == 1 {
      assert Join(Schemed(ts), ',') == "Bearer " + t;
      StripBearerScheme(t);
      StripBearerWithoutSpace(t);
    } else {
      var rest := Join(Schemed(ts[1..]), ',');
      assert Schemed(ts)[1..] == Schemed(ts[1..]);
      assert Join(Schemed(ts), ',') == "Bearer " + (t + [','] + rest);
      StripBearerScheme(t + [','] + rest);
      StripBearerBeforeComma(t, rest);
      StripSchemedJoin(ts[1..]);
    }
  }

  /** A `Bearer ` scheme before a token that does not start with `\s` is removed. */
  lemma StripBearerScheme(t: string)
    requires t == [] || !IsRegexSpace(t[0])
    ensures StripBearer("Bearer " + t) == StripBearer(t)
  {
    var s := "Bearer " + t;
    assert BearerAt(s);
    assert s[6..] == [' '] + t;
    assert LeadingRegexSpace(s[6..]) == 1;
    assert s[7..] == t;
  }
}
