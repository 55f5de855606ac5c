/** Shared vocabulary: optional values, results, and the handful of Python
    string operations the pipeline relies on (str.strip, str.lower, slicing,
    substring tests and the `\w` class used by `\b`). */
module Common {

  datatype Option<+T> = None | Some(value: T) {
    function GetOr(default: T): T {
      match this
      case Some(v) => v
      case None => default
    }
  }

  datatype Result<+T, +E> = Ok(value: T) | Err(error: E)

  /** How an HTTP route fails: an `HTTPException` with status 400, 404 or
      500 and its detail, a request the framework refuses before the route
      runs (422, a parameter outside its declared range), or an exception
      the route does not catch (which the framework answers with 500). */
  datatype HttpError =
    | BadRequest(detail: string)
    | NotFound(detail: string)
    | ServerError(detail: string)
    | Unprocessable
    | Uncaught

  // ---------------------------------------------------------------------------
  // Python truthiness of optional strings and the `a or b` idiom

  /** `bool(s)` for a value that may be None. */
  predicate Truthy(s: Option<string>) {
    s.Some? && s.value != ""
  }

  /** `a or b` where `a` may be None and `b` is a string. */
  function OrElse(a: Option<string>, b: string): (r: string)
    ensures Truthy(a) ==> r == a.value
    ensures !Truthy(a) ==> r == b
  {
    if Truthy(a) then a.value else b
  }

  /** `a or b` where both may be None. */
  function OrElseOpt(a: Option<string>, b: Option<string>): (r: Option<string>)
    ensures Truthy(a) ==> r == a
    ensures !Truthy(a) ==> r == b
  {
    if Truthy(a) then a else b
  }

  // ---------------------------------------------------------------------------
  // Whitespace and str.strip()

  /** The characters for which Python's `str.isspace()` holds. */
  predicate IsSpace(c: char) {
    var n := c as int;
    (0x09 <= n <= 0x0D) || (0x1C <= n <= 0x20) || n == 0x85 || n == 0xA0 ||
    n == 0x1680 || (0x2000 <= n <= 0x200A) || n == 0x2028 || n == 0x2029 ||
    n == 0x202F || n == 0x205F || n == 0x3000
  }

  predicate AllSpace(s: string) {
    forall i :: 0 <= i < |s| ==> IsSpace(s[i])
  }

  /** Index of the first non-whitespace character at or after `i`, or |s|. */
  function SkipSpaceFrom(s: string, i: nat): (r: nat)
    requires i <= |s|
    ensures i <= r <= |s|
    ensures forall k :: i <= k < r ==> IsSpace(s[k])
    ensures r < |s| ==> !IsSpace(s[r])
    decreases |s| - i
  {
    if i < |s| && IsSpace(s[i]) then SkipSpaceFrom(s, i + 1) else i
  }

  /** Index just past the last non-whitespace character in s[lo..j], or lo. */
  function SkipSpaceBack(s: string, lo: nat, j: nat): (r: nat)
    requires lo <= j <= |s|
    ensures lo <= r <= j
    ensures forall k :: r <= k < j ==> IsSpace(s[k])
    ensures r > lo ==> !IsSpace(s[r - 1])
    decreases j
  {
    if j > lo && IsSpace(s[j - 1]) then SkipSpaceBack(s, lo, j - 1) else j
  }

  /** `s.strip()` with no argument. */
  function Strip(s: string): (r: string)
    ensures |r| <= |s|
  {
    var lo := SkipSpaceFrom(s, 0);
    s[lo..SkipSpaceBack(s, lo, |s|)]
  }

  /** `s.strip()` is empty exactly when `s` is empty or whitespace only, and
      a non-empty result neither starts nor ends with whitespace. */
  lemma StripShape(s: string)
    ensures Strip(s) == [] <==> AllSpace(s)
    ensures Strip(s) != [] ==> !IsSpace(Strip(s)[0]) && !IsSpace(Strip(s)[|Strip(s)| - 1])
  {
    var lo := SkipSpaceFrom(s, 0);
    var hi := SkipSpaceBack(s, lo, |s|);
    if lo < |s| {
      assert !IsSpace(s[lo]);
      assert hi > lo;
    }
  }

  /** A string with no whitespace at either end is its own strip. */
  lemma StripNoop(s: string)
    requires s == [] || (!IsSpace(s[0]) && !IsSpace(s[|s| - 1]))
    ensures Strip(s) == s
  {
  }

  lemma StripIdempotent(s: string)
    ensures Strip(Strip(s)) == Strip(s)
  {
    StripShape(s);
    StripNoop(Strip(s));
  }

  // ---------------------------------------------------------------------------
  // Case mapping (ASCII letters only)

  function LowerChar(c: char): char {
    if 'A' <= c <= 'Z' then (c as int + 32) as char else c
  }

  /** `s.lower()`, restricted to the ASCII letters. */
  function Lower(s: string): (r: string)
    ensures |r| == |s|
    ensures forall i :: 0 <= i < |s| ==> r[i] == LowerChar(s[i])
  {
    seq(|s|, i requires 0 <= i < |s| => LowerChar(s[i]))
  }

  lemma LowerIdempotent(s: string)
    ensures Lower(Lower(s)) == Lower(s)
  {
  }

  lemma LowerAppend(a: string, b: string)
    ensures Lower(a + b) == Lower(a) + Lower(b)
  {
  }

  lemma LowerKeepsSpace(c: char)
    ensures IsSpace(LowerChar(c)) == IsSpace(c)
  {
  }

  lemma {:induction false} SkipSpaceFromLower(s: string, i: nat)
    requires i <= |s|
    ensures SkipSpaceFrom(Lower(s), i) == SkipSpaceFrom(s, i)
    decreases |s| - i
  {
    if i < |s| {
      LowerKeepsSpace(s[i]);
      SkipSpaceFromLower(s, i + 1);
    }
  }

  lemma {:induction false} SkipSpaceBackLower(s: string, lo: nat, j: nat)
    requires lo <= j <= |s|
    ensures SkipSpaceBack(Lower(s), lo, j) == SkipSpaceBack(s, lo, j)
    decreases j
  {
    if j > lo {
      LowerKeepsSpace(s[j - 1]);
      SkipSpaceBackLower(s, lo, j - 1);
    }
  }

  /** Lower-casing and stripping commute. */
  lemma StripLower(s: string)
    ensures Strip(Lower(s)) == Lower(Strip(s))
  {
    SkipSpaceFromLower(s, 0);
    SkipSpaceBackLower(s, SkipSpaceFrom(s, 0), |s|);
  }

  /** The normal form of a keyword rule: `s.strip().lower()`. */
  function Normalize(s: string): (r: string)
    ensures |r| <= |s|
    ensures r == [] <==> AllSpace(s)
  {
    StripShape(s);
    Lower(Strip(s))
  }

  /** Normalising twice is normalising once. */
  lemma NormalizeIdempotent(s: string)
    ensures Normalize(Normalize(s)) == Normalize(s)
  {
    var t := Strip(s);
    StripLower(t);
    StripIdempotent(s);
    LowerIdempotent(t);
  }

  // ---------------------------------------------------------------------------
  // Slicing and substrings

  /** Python's `s[:n]`, including the meaning of a negative `n`. */
  function PyPrefix(s: string, n: int): (r: string)
    ensures |r| <= |s|
    ensures n >= 0 ==> |r| == if n <= |s| then n else |s|
    ensures r == s[..|r|]
  {
    if n >= |s| then s
    else if n >= 0 then s[..n]
    else if |s| + n >= 0 then s[..|s| + n]
    else []
  }

  predicate OccursAt(hay: string, needle: string, i: int) {
    0 <= i && i + |needle| <= |hay| && hay[i..i + |needle|] == needle
  }

  /** Python's `needle in hay` for strings. */
  predicate Contains(hay: string, needle: string) {
    exists i :: 0 <= i <= |hay| - |needle| && OccursAt(hay, needle, i)
  }

  /** SQL `LIKE '%needle%'` / `ILIKE` as SQLite evaluates it: a substring test
      that ignores the case of ASCII letters. */
  predicate ContainsFold(hay: string, needle: string) {
    Contains(Lower(hay), Lower(needle))
  }

  // ---------------------------------------------------------------------------
  // Characters of the regular-expression class `\w`

  predicate IsAsciiDigit(c: char) { '0' <= c <= '9' }

  /** The part of Python's Unicode `\w` this model knows: ASCII letters,
      digits and underscore, Latin letters with diacritics, the basic Greek
      and Cyrillic letters, hiragana and katakana letters, CJK ideographs,
      Hangul syllables, and full-width letters and digits. Word characters of
      other scripts (Arabic, Hebrew, Indic, Thai and the rest) and non-ASCII
      digits outside these blocks count as non-word here. */
  predicate IsWordChar(c: char) {
    var n := c as int;
    ('a' <= c <= 'z') || ('A' <= c <= 'Z') || IsAsciiDigit(c) || c == '_' ||
    (0xC0 <= n <= 0x24F && n != 0xD7 && n != 0xF7) ||
    (0x391 <= n <= 0x3C9 && n != 0x3A2) || (0x400 <= n <= 0x481) ||
    (0x3041 <= n <= 0x3096) || (0x309D <= n <= 0x309F) || (0x30A1 <= n <= 0x30FA) || (0x30FC <= n <= 0x30FF) ||
    (0x4E00 <= n <= 0x9FFF) || (0xAC00 <= n <= 0xD7A3) ||
    (0xFF10 <= n <= 0xFF19) || (0xFF21 <= n <= 0xFF3A) || (0xFF41 <= n <= 0xFF5A)
  }

  // ---------------------------------------------------------------------------
  // Integer parsing as Python's int(str) does it for plain decimal numerals

  function DigitsValue(s: string): (r: nat)
    requires forall i :: 0 <= i < |s| ==> IsAsciiDigit(s[i])
  {
    if s == [] then 0
    else
      assert IsAsciiDigit(s[|s| - 1]);
      DigitsValue(s[..|s| - 1]) * 10 + (s[|s| - 1] as int - '0' as int)
  }

  predicate AllDigits(s: string) {
    s != [] && forall i :: 0 <= i < |s| ==> IsAsciiDigit(s[i])
  }

  /** `int(s)` for an optionally signed run of ASCII digits with surrounding
      whitespace; None where Python raises ValueError. */
  function ParseInt(s: string): (r: Option<int>)
    ensures AllDigits(Strip(s)) ==> r == Some(DigitsValue(Strip(s)))
  {
    var t := Strip(s);
    if AllDigits(t) then Some(DigitsValue(t))
    else if |t| >= 2 && (t[0] == '+' || t[0] == '-') && AllDigits(t[1..]) then
      var v: int := DigitsValue(t[1..]);
      Some(if t[0] == '-' then -v else v)
    else None
  }

  /** `s.split(sep)` for a one-character separator. */
  function Split(s: string, sep: char): (r: seq<string>)
    ensures |r| >= 1
    ensures forall k :: 0 <= k < |r| ==> sep !in r[k]
    decreases |s|
  {
    if s == [] then [[]]
    else
      var rest := Split(s[1..], sep);
      if s[0] == sep then [[]] + rest
      else [[s[0]] + rest[0]] + rest[1..]
  }

  /** A string without the separator splits into itself alone. */
  lemma {:induction false} SplitNoSep(s: string, sep: char)
    requires sep !in s
    ensures Split(s, sep) == [s]
    decreases |s|
  {
    if s != [] {
      SplitNoSep(s[1..], sep);
      assert [s[0]] + s[1..] == s;
    }
  }

  /** Splitting at the first separator. */
  lemma {:induction false} SplitFirst(a: string, b: string, sep: char)
    requires sep !in a
    ensures Split(a + [sep] + b, sep) == [a] + Split(b, sep)
    decreases |a|
  {
    var s := a + [sep] + b;
    if a == [] {
      assert s[1..] == b;
    } else {
      assert s[1..] == a[1..] + [sep] + b;
      SplitFirst(a[1..], b, sep);
      assert [a[0]] + a[1..] == a;
    }
  }

  /** Two separator-free parts joined by the separator split back into
      the two parts. */
  lemma SplitTwo(a: string, b: string, sep: char)
    requires sep !in a && sep !in b
    ensures Split(a + [sep] + b, sep) == [a, b]
  {
    SplitFirst(a, b, sep);
    SplitNoSep(b, sep);
  }

  /** A sequence is its prefix before index `i`, the element at `i` and
      the rest. */
  lemma AroundIndex<T>(s: seq<T>, i: nat)
    requires i < |s|
    ensures s == s[..i] + [s[i]] + s[i + 1..]
  {
    assert s == s[..i] + s[i..];
    assert s[i..] == [s[i]] + s[i + 1..];
  }

  /** `str(n)` for a natural number: its decimal digits, no sign, no
      leading zero. */
  function DecimalString(n: nat): (r: string)
    ensures AllDigits(r)
    ensures |r| > 1 ==> r[0] != '0'
    decreases n
  {
    var d := ['0' + ((n % 10) as char)];
    if n < 10 then d else DecimalString(n / 10) + d
  }

  lemma {:induction false} DecimalStringValue(n: nat)
    ensures DigitsValue(DecimalString(n)) == n
    decreases n
  {
    var r := DecimalString(n);
    if n >= 10 {
      DecimalStringValue(n / 10);
      assert r[..|r| - 1] == DecimalString(n / 10);
    }
  }

  /** `int(str(n)) == n`. */
  lemma DecimalStringParses(n: nat)
    ensures ParseInt(DecimalString(n)) == Some(n)
  {
    var r := DecimalString(n);
    StripNoop(r);
    DecimalStringValue(n);
  }
}
