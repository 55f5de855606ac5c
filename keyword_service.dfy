/** Keyword matching and the keyword filter pass
    (app/services/keyword_service.py). */
module KeywordService {
  import opened Common
  import opened Store

  const MIN_KEYWORD_LENGTH := 2

  // ---------------------------------------------------------------------------
  // Compiled patterns: `\b` + re.escape(keyword) + `\b`, case-insensitive

  /** The compiled form of one kept keyword. */
  datatype Pattern = WordPattern(literal: string)

  /** Position `i` of `t` holds a `\w` character (outside the text is not). */
  predicate WordAt(t: string, i: int) {
    0 <= i < |t| && IsWordChar(t[i])
  }

  /** `\b` holds between positions i-1 and i. */
  predicate Boundary(t: string, i: int) {
    WordAt(t, i - 1) != WordAt(t, i)
  }

  /** The pattern matches `t` starting at position `p`. */
  predicate MatchAt(pat: Pattern, t: string, p: int) {
    0 <= p && p + |pat.literal| <= |t| &&
    Lower(t[p..p + |pat.literal|]) == Lower(pat.literal) &&
    Boundary(t, p) && Boundary(t, p + |pat.literal|)
  }

  /** `pattern.search(text)` found a match. */
  predicate Search(pat: Pattern, t: string) {
    exists p :: 0 <= p <= |t| - |pat.literal| && MatchAt(pat, t, p)
  }

  // ---------------------------------------------------------------------------
  // Which keywords `add_keywords` keeps

  /** The cleaned keyword that `add_keywords` keeps for one input, if any. */
  function KeepKeyword(k: Option<string>, minLength: int): (r: Option<string>)
    ensures r.Some? ==> k.Some? && r.value == Strip(k.value) && r.value != "" && |r.value| >= minLength
  {
    if k.Some? && k.value != "" && Strip(k.value) != "" && |Strip(k.value)| >= minLength
    then Some(Strip(k.value))
    else None
  }

  /** `add_keywords` drops None, empty and whitespace-only keywords and
      those whose stripped length is below the minimum, and keeps the
      stripped text of every other one. */
  lemma KeepKeywordExactly(k: Option<string>, minLength: int)
    ensures KeepKeyword(k, minLength).Some? <==> k.Some? && !AllSpace(k.value) && |Strip(k.value)| >= minLength
  {
    if k.Some? {
      StripShape(k.value);
    }
  }

  /** The cleaned keywords kept from `keywords`, in input order. */
  function Kept(keywords: seq<Option<string>>, minLength: int): (r: seq<string>)
    ensures |r| <= |keywords|
  {
    if keywords == [] then []
    else
      var last := KeepKeyword(keywords[|keywords| - 1], minLength);
      Kept(keywords[..|keywords| - 1], minLength) + (if last.Some? then [last.value] else [])
  }

  /** Every kept keyword is the kept form of one of the inputs. */
  lemma {:induction false} KeptSound(keywords: seq<Option<string>>, minLength: int, s: string)
    requires s in Kept(keywords, minLength)
    ensures exists i :: 0 <= i < |keywords| && KeepKeyword(keywords[i], minLength) == Some(s)
    decreases |keywords|
  {
    var n := |keywords| - 1;
    var init := keywords[..n];
    var last := KeepKeyword(keywords[n], minLength);
    if s in Kept(init, minLength) {
      KeptSound(init, minLength, s);
      var i :| 0 <= i < |init| && KeepKeyword(init[i], minLength) == Some(s);
      assert keywords[i] == init[i];
    } else {
      assert last == Some(s);
    }
  }

  /** Every input that passes the filters is kept. */
  lemma {:induction false} KeptComplete(keywords: seq<Option<string>>, minLength: int, i: int)
    requires 0 <= i < |keywords| && KeepKeyword(keywords[i], minLength).Some?
    ensures KeepKeyword(keywords[i], minLength).value in Kept(keywords, minLength)
    decreases |keywords|
  {
    var n := |keywords| - 1;
    if i < n {
      var init := keywords[..n];
      assert init[i] == keywords[i];
      KeptComplete(init, minLength, i);
    }
  }

  lemma KeptAppend(a: seq<Option<string>>, b: seq<Option<string>>, minLength: int)
    ensures Kept(a + b, minLength) == Kept(a, minLength) + Kept(b, minLength)
    decreases |b|
  {
    if b == [] {
      assert a + b == a;
    } else {
      var n := |b| - 1;
      assert (a + b)[..|a + b| - 1] == a + b[..n];
      assert (a + b)[|a + b| - 1] == b[n];
      KeptAppend(a, b[..n], minLength);
      var last := KeepKeyword(b[n], minLength);
      var tail := if last.Some? then [last.value] else [];
      calc {
        Kept(a + b, minLength);
        Kept(a + b[..n], minLength) + tail;
        (Kept(a, minLength) + Kept(b[..n], minLength)) + tail;
        Kept(a, minLength) + (Kept(b[..n], minLength) + tail);
      }
    }
  }

  /** The set `add_keywords` builds: the lower-case form of each kept
      keyword. */
  function LowerSet(ks: seq<string>): set<string>
  {
    if ks == [] then {} else LowerSet(ks[..|ks| - 1]) + {Lower(ks[|ks| - 1])}
  }

  lemma {:induction false} LowerSetMembers(ks: seq<string>, x: string)
    ensures x in LowerSet(ks) <==> exists i :: 0 <= i < |ks| && Lower(ks[i]) == x
    decreases |ks|
  {
    if ks != [] {
      var n := |ks| - 1;
      LowerSetMembers(ks[..n], x);
      if x in LowerSet(ks[..n]) {
        var i :| 0 <= i < n && Lower(ks[..n][i]) == x;
        assert ks[i] == ks[..n][i];
      }
      if exists i :: 0 <= i < |ks| && Lower(ks[i]) == x {
        var i :| 0 <= i < |ks| && Lower(ks[i]) == x;
        if i < n { assert ks[..n][i] == ks[i]; }
      }
    }
  }

  /** The lower-cased keyword set has at most one element per kept keyword,
      exactly one when the lower-cased keywords are distinct, and is empty
      exactly when nothing was kept. */
  lemma {:induction false} LowerSetSize(ks: seq<string>)
    ensures |LowerSet(ks)| <= |ks|
    ensures (forall i, j :: 0 <= i < j < |ks| ==> Lower(ks[i]) != Lower(ks[j])) ==> |LowerSet(ks)| == |ks|
    ensures |LowerSet(ks)| == 0 <==> ks == []
    decreases |ks|
  {
    if ks != [] {
      var n := |ks| - 1;
      var init := ks[..n];
      LowerSetSize(init);
      assert Lower(ks[n]) in LowerSet(ks);
      if forall i, j :: 0 <= i < j < |ks| ==> Lower(ks[i]) != Lower(ks[j]) {
        assert forall i, j :: 0 <= i < j < |init| ==> Lower(init[i]) != Lower(init[j]) by {
          forall i, j | 0 <= i < j < |init| ensures Lower(init[i]) != Lower(init[j]) {
            assert init[i] == ks[i] && init[j] == ks[j];
          }
        }
        LowerSetMembers(init, Lower(ks[n]));
      }
    }
  }

  // ---------------------------------------------------------------------------
  // What `matches` reports

  /** The keywords whose own pattern matches `t`, in registration order. */
  function MatchedNames(originals: seq<string>, t: string): (r: seq<string>)
    ensures |r| <= |originals|
    ensures forall k :: 0 <= k < |r| ==> r[k] in originals
  {
    if originals == [] then []
    else
      var n := |originals| - 1;
      MatchedNames(originals[..n], t) + (if Search(WordPattern(originals[n]), t) then [originals[n]] else [])
  }

  /** A name is reported exactly when it is a kept keyword whose own
      pattern matches, and never more often than there are keywords. */
  lemma {:induction false} MatchedNamesExactly(originals: seq<string>, t: string)
    ensures forall s :: s in MatchedNames(originals, t) <==> s in originals && Search(WordPattern(s), t)
    ensures |MatchedNames(originals, t)| <= |originals|
    decreases |originals|
  {
    if originals != [] {
      var n := |originals| - 1;
      var init := originals[..n];
      MatchedNamesExactly(init, t);
      assert originals == init + [originals[n]];
    }
  }

  /** Something is reported exactly when some pattern matches. */
  lemma MatchedNamesNonEmpty(originals: seq<string>, t: string)
    ensures MatchedNames(originals, t) != [] <==>
      exists i :: 0 <= i < |originals| && Search(WordPattern(originals[i]), t)
  {
    MatchedNamesExactly(originals, t);
    if exists i :: 0 <= i < |originals| && Search(WordPattern(originals[i]), t) {
      var i :| 0 <= i < |originals| && Search(WordPattern(originals[i]), t);
      assert originals[i] in MatchedNames(originals, t);
    }
  }

  /** A match needs a non-empty text: `matches('')` reports nothing. */
  lemma {:induction false} MatchedNamesEmptyText(originals: seq<string>)
    requires forall i :: 0 <= i < |originals| ==> originals[i] != ""
    ensures MatchedNames(originals, "") == []
    decreases |originals|
  {
    if originals != [] {
      MatchedNamesEmptyText(originals[..|originals| - 1]);
    }
  }

  /** The text `filter_articles` and `filter_articles_by_keywords` test:
      "title description content" with missing parts read as ''. */
  /** `" ".join(parts)`. */
  function JoinWords(parts: seq<string>): string
    decreases |parts|
  {
    if parts == [] then ""
    else if |parts| == 1 then parts[0]
    else JoinWords(parts[..|parts| - 1]) + " " + parts[|parts| - 1]
  }

  function ArticleText(a: Article): string {
    JoinWords([a.title, OrElse(a.description, ""), OrElse(a.content, "")])
  }

  predicate ArticleMatches(originals: seq<string>, a: Article) {
    MatchedNames(originals, ArticleText(a)) != []
  }

  function MatchedArticles(originals: seq<string>, arts: seq<Article>): seq<Article>
  {
    if arts == [] then []
    else
      var n := |arts| - 1;
      MatchedArticles(originals, arts[..n]) + (if ArticleMatches(originals, arts[n]) then [arts[n]] else [])
  }

  function UnmatchedArticles(originals: seq<string>, arts: seq<Article>): seq<Article>
  {
    if arts == [] then []
    else
      var n := |arts| - 1;
      UnmatchedArticles(originals, arts[..n]) + (if ArticleMatches(originals, arts[n]) then [] else [arts[n]])
  }

  /** `filter_articles` puts every article in exactly one of its two lists,
      each list keeps input order, and the matched list holds exactly the
      matching articles. */
  lemma {:induction false} FilterPartition(originals: seq<string>, arts: seq<Article>)
    ensures multiset(MatchedArticles(originals, arts)) + multiset(UnmatchedArticles(originals, arts)) == multiset(arts)
    ensures forall a :: a in MatchedArticles(originals, arts) <==> a in arts && ArticleMatches(originals, a)
    ensures forall a :: a in UnmatchedArticles(originals, arts) <==> a in arts && !ArticleMatches(originals, a)
    decreases |arts|
  {
    if arts != [] {
      var n := |arts| - 1;
      FilterPartition(originals, arts[..n]);
      assert arts == arts[..n] + [arts[n]];
    }
  }

  // ---------------------------------------------------------------------------
  // The matcher object

  class KeywordFilter {
    var keywordSet: set<string>
    var patterns: seq<Pattern>
    var originals: seq<string>
    const minLength: int

    /** Pattern i is compiled from kept keyword i; the set holds their
        lower-case forms; every kept keyword is non-empty. */
    ghost predicate Valid()
      reads this
    {
      |patterns| == |originals| &&
      (forall i :: 0 <= i < |patterns| ==> patterns[i] == WordPattern(originals[i])) &&
      (forall i :: 0 <= i < |originals| ==> originals[i] != "") &&
      keywordSet == LowerSet(originals)
    }

    constructor (keywords: Option<seq<Option<string>>>, minLength: int)
      ensures Valid()
      ensures this.minLength == minLength
      ensures originals == Kept(keywords.GetOr([]), minLength)
    {
      this.minLength := minLength;
      keywordSet, patterns, originals := {}, [], [];
      new;
      if keywords.Some? && keywords.value != [] {
        AddKeywords(keywords.value);
      }
    }

    /** Appends one pattern and one original per kept keyword and adds its
        lower-case form to the set. */
    method AddKeywords(keywords: seq<Option<string>>)
      requires Valid()
      modifies this
      ensures Valid()
      ensures originals == old(originals) + Kept(keywords, minLength)
      ensures |patterns| == old(|patterns|) + |Kept(keywords, minLength)|
      ensures keywordSet == old(keywordSet) + LowerSet(Kept(keywords, minLength))
    {
      var i := 0;
      while i < |keywords|
        invariant 0 <= i <= |keywords|
        invariant Valid()
        invariant originals == old(originals) + Kept(keywords[..i], minLength)
      {
        var kept := KeepKeyword(keywords[i], minLength);
        assert keywords[..i + 1][..i] == keywords[..i];
        assert Kept(keywords[..i + 1], minLength) == Kept(keywords[..i], minLength) + (if kept.Some? then [kept.value] else []);
        if kept.Some? {
          AddOne(kept.value);
        }
        i := i + 1;
      }
      assert keywords[..i] == keywords;
      LowerSetAppend(old(originals), Kept(keywords, minLength));
    }

    /** One step of the `add_keywords` loop for a keyword that is kept. */
    method AddOne(clean: string)
      requires Valid() && clean != ""
      modifies this
      ensures Valid()
      ensures originals == old(originals) + [clean]
      ensures keywordSet == old(keywordSet) + {Lower(clean)}
    {
      keywordSet := keywordSet + {Lower(clean)};
      assert (originals + [clean])[..|originals|] == originals;
      originals := originals + [clean];
      patterns := patterns + [WordPattern(clean)];
    }

    method Clear()
      modifies this
      ensures Valid()
      ensures keywordSet == {} && patterns == [] && originals == []
    {
      keywordSet, patterns, originals := {}, [], [];
    }

    /** `keyword_count`: the number of distinct lower-case keywords, which
        can be smaller than the number of patterns. */
    function KeywordCount(): (n: nat)
      reads this
      requires Valid()
      ensures n <= |patterns|
      ensures n == 0 <==> patterns == []
    {
      LowerSetSize(originals);
      |keywordSet|
    }

    /** `matches(text)`: reports the keyword of every pattern that matches,
        in pattern order (the keyword of the pattern itself; see the
        as-written variant below), and a third component that is always
        false. */
    method Matches(text: string) returns (isMatch: bool, matched: seq<string>, titleMatch: bool)
      requires Valid()
      ensures !titleMatch
      ensures text == "" || patterns == [] ==> !isMatch && matched == []
      ensures isMatch <==> exists i :: 0 <= i < |patterns| && Search(patterns[i], text)
      ensures matched == MatchedNames(originals, text)
      ensures isMatch <==> matched != []
    {
      MatchedNamesNonEmpty(originals, text);
      if text == "" || patterns == [] {
        MatchedNamesEmptyText(originals);
        return false, [], false;
      }
      matched := [];
      var i := 0;
      while i < |patterns|
        invariant 0 <= i <= |patterns|
        invariant matched == MatchedNames(originals[..i], text)
      {
        assert originals[..i + 1][..i] == originals[..i];
        if Search(patterns[i], text) {
          matched := matched + [originals[i]];
        }
        i := i + 1;
      }
      assert originals[..i] == originals;
      isMatch := |matched| > 0;
      titleMatch := false;
    }

    /** `filter_articles`: splits `articles` into those whose
        "title description content" text matches and the rest. */
    method FilterArticles(articles: seq<Article>) returns (matched: seq<Article>, unmatched: seq<Article>)
      requires Valid()
      ensures matched == MatchedArticles(originals, articles)
      ensures unmatched == UnmatchedArticles(originals, articles)
      ensures multiset(matched) + multiset(unmatched) == multiset(articles)
    {
      matched, unmatched := [], [];
      var i := 0;
      while i < |articles|
        invariant 0 <= i <= |articles|
        invariant matched == MatchedArticles(originals, articles[..i])
        invariant unmatched == UnmatchedArticles(originals, articles[..i])
      {
        assert articles[..i + 1][..i] == articles[..i];
        var isMatch, _, _ := Matches(ArticleText(articles[i]));
        if isMatch {
          matched := matched + [articles[i]];
        } else {
          unmatched := unmatched + [articles[i]];
        }
        i := i + 1;
      }
      assert articles[..i] == articles;
      FilterPartition(originals, articles);
    }
  }

  lemma {:induction false} LowerSetAppend(a: seq<string>, b: seq<string>)
    ensures LowerSet(a + b) == LowerSet(a) + LowerSet(b)
    decreases |b|
  {
    if b == [] {
      assert a + b == a;
    } else {
      var n := |b| - 1;
      assert (a + b)[..|a + b| - 1] == a + b[..n];
      assert (a + b)[|a + b| - 1] == b[n];
      LowerSetAppend(a, b[..n]);
    }
  }

  /** `test_keyword_match(keyword, text)`: a one-keyword matcher. With one
      pattern the set `list(self._keywords)` indexes has exactly one element,
      the lower-cased keyword, so the name the source reports is well defined
      and is that lower-cased form. */
  method TestKeywordMatch(keyword: string, text: string) returns (isMatch: bool, matched: seq<string>, titleMatch: bool)
    ensures !titleMatch
    ensures isMatch <==> !AllSpace(keyword) && |Strip(keyword)| >= MIN_KEYWORD_LENGTH &&
                         Search(WordPattern(Strip(keyword)), text)
    ensures matched == if isMatch then [Lower(Strip(keyword))] else []
    ensures Ok(matched) == MatchedNamesAsWritten(Kept([Some(keyword)], MIN_KEYWORD_LENGTH), [Lower(Strip(keyword))], text)
  {
    var f := new KeywordFilter(Some([Some(keyword)]), MIN_KEYWORD_LENGTH);
    assert [Some(keyword)][..0] == [];
    KeepKeywordExactly(Some(keyword), MIN_KEYWORD_LENGTH);
    var names;
    isMatch, names, titleMatch := f.Matches(text);
    if f.originals != [] {
      assert f.originals == [Strip(keyword)];
      assert f.originals[..0] == [];
      OneKeywordAsWritten(Strip(keyword), text);
      matched := if isMatch then [Lower(f.originals[0])] else [];
    } else {
      matched := [];
    }
  }

  /** With a single kept keyword `k` the set holds just `Lower(k)`, and the
      names the source reports are that one element whenever the pattern
      matches. */
  lemma OneKeywordAsWritten(k: string, t: string)
    ensures IsEnumeration([Lower(k)], LowerSet([k]))
    ensures MatchedNamesAsWritten([k], [Lower(k)], t) == Ok(if Search(WordPattern(k), t) then [Lower(k)] else [])
  {
    assert [k][..0] == [];
    assert MatchedNamesAsWritten([], [Lower(k)], t) == Ok([]);
    assert [Lower(k)][0] == Lower(k);
    assert [] + [Lower(k)] == [Lower(k)];
  }

  /** A pattern cannot match where no window of the text agrees with its
      first two characters. */
  lemma NoWindow(lit: string, t: string)
    requires |lit| >= 2
    requires forall p :: 0 <= p < |t| - 1 ==>
      LowerChar(t[p]) != LowerChar(lit[0]) || LowerChar(t[p + 1]) != LowerChar(lit[1])
    ensures !Search(WordPattern(lit), t)
  {
    forall p | 0 <= p <= |t| - |lit| ensures !MatchAt(WordPattern(lit), t, p) {
      var w := t[p..p + |lit|];
      assert Lower(w)[0] == LowerChar(t[p]) && Lower(w)[1] == LowerChar(t[p + 1]);
      assert Lower(lit)[0] == LowerChar(lit[0]) && Lower(lit)[1] == LowerChar(lit[1]);
    }
  }

  lemma PythonAiNames(t: string, python: bool, ai: bool)
    requires python == Search(WordPattern("python"), t) && ai == Search(WordPattern("ai"), t)
    ensures MatchedNames(["python", "ai"], t) == (if python then ["python"] else []) + (if ai then ["ai"] else [])
  {
    var os := ["python", "ai"];
    assert os[..1] == ["python"];
    assert os[..1][..0] == [];
    assert MatchedNames(os[..1], t) == (if python then ["python"] else []);
  }

  /** Unit-test text "学习 Python 编程": only "python" matches. */
  lemma UnitTestPythonText()
    ensures MatchedNames(["python", "ai"], "学习 Python 编程") == ["python"]
  {
    var t := "学习 Python 编程";
    assert t[3..9] == "Python";
    assert MatchAt(WordPattern("python"), t, 3);
    NoWindow("ai", t);
    PythonAiNames(t, true, false);
  }

  /** Unit-test text "使用 Java 开发": nothing matches. */
  lemma UnitTestJavaText()
    ensures MatchedNames(["python", "ai"], "使用 Java 开发") == []
  {
    var t := "使用 Java 开发";
    NoWindow("python", t);
    NoWindow("ai", t);
    PythonAiNames(t, false, false);
  }

  /** Unit-test text "AI 和机器学习": only "ai" matches, whatever its case. */
  lemma UnitTestAiText()
    ensures MatchedNames(["python", "ai"], "AI 和机器学习") == ["ai"]
  {
    var t := "AI 和机器学习";
    assert t[0..2] == "AI";
    assert MatchAt(WordPattern("ai"), t, 0);
    NoWindow("python", t);
    PythonAiNames(t, false, true);
  }

  /** Unit-test text "最新科技新闻": nothing matches. */
  lemma UnitTestNewsText()
    ensures MatchedNames(["python", "ai"], "最新科技新闻") == []
  {
    var t := "最新科技新闻";
    NoWindow("python", t);
    NoWindow("ai", t);
    PythonAiNames(t, false, false);
  }

  // ---------------------------------------------------------------------------
  // The names `matches` reports as written

  datatype PyError = IndexError

  /** `s` lists the elements of the set `keys` once each, in some order:
      what `list(self._keywords)` produces. */
  ghost predicate IsEnumeration(s: seq<string>, keys: set<string>) {
    (forall i, j :: 0 <= i < j < |s| ==> s[i] != s[j]) &&
    (forall x :: x in keys <==> x in s)
  }

  /** The names the source reports: for the i-th matching pattern it
      reports `list(self._keywords)[i]`, the i-th element of the set in its
      iteration order `order`, and raises IndexError when i is past the end
      of that list. */
  function MatchedNamesAsWritten(originals: seq<string>, order: seq<string>, t: string): (r: Result<seq<string>, PyError>)
    ensures r.Ok? ==> |r.value| <= |originals| && forall k :: 0 <= k < |r.value| ==> r.value[k] in order
  {
    if originals == [] then Ok([])
    else
      var n := |originals| - 1;
      var init := MatchedNamesAsWritten(originals[..n], order, t);
      if init.Err? then init
      else if !Search(WordPattern(originals[n]), t) then init
      else if n < |order| then Ok(init.value + [order[n]])
      else Err(IndexError)
  }

  /** Pattern "python" matches the text "python" as a whole word. */
  lemma PythonMatchesPython()
    ensures Search(WordPattern("python"), "python")
  {
    assert "python"[0..6] == "python";
    assert MatchAt(WordPattern("python"), "python", 0);
  }

  /** Pattern "ai" does not occur in "python": no window starts with 'a'. */
  lemma AiMissesPython()
    ensures !Search(WordPattern("ai"), "python")
  {
    var t := "python";
    forall p | 0 <= p <= |t| - 2 ensures !MatchAt(WordPattern("ai"), t, p) {
      assert LowerChar(t[p]) != 'a';
      assert Lower(t[p..p + 2])[0] == LowerChar(t[p]);
    }
  }

  /** `\b` sees letters of other scripts too: in "дai" the Cyrillic letter
      before "ai" is a word character, so the pattern "ai" does not match. */
  lemma CyrillicBlocksBoundary()
    ensures !Search(WordPattern("ai"), "дai")
  {
    var t := "дai";
    assert IsWordChar(t[0]) && IsWordChar(t[1]);
    assert !Boundary(t, 1);
    assert Lower(t[0..2])[0] == LowerChar(t[0]) != 'a';
  }

  lemma PythonAiSet()
    ensures LowerSet(["python", "ai"]) == {"python", "ai"}
  {
    var os := ["python", "ai"];
    assert os[..1] == ["python"];
    assert os[..1][..0] == [];
    assert Lower(os[0]) == "python";
    assert Lower(os[1]) == "ai";
  }

  /** With keywords "python" and "ai" the set may iterate as ["ai", "python"]:
      the text "python" matches only the "python" pattern, and the source
      reports "ai" for it. */
  lemma AsWrittenReportsWrongKeyword()
    ensures IsEnumeration(["ai", "python"], LowerSet(["python", "ai"]))
    ensures MatchedNamesAsWritten(["python", "ai"], ["ai", "python"], "python") == Ok(["ai"])
    ensures MatchedNames(["python", "ai"], "python") == ["python"]
  {
    PythonAiSet();
    PythonMatchesPython();
    AiMissesPython();
    var os := ["python", "ai"];
    assert os[..1] == ["python"];
    assert os[..1][..0] == [];
    var order := ["ai", "python"];
    assert MatchedNamesAsWritten(os[..1][..0], order, "python") == Ok([]);
    assert os[..1][0] == "python";
    assert order[0] == "ai";
    assert [] + [order[0]] == ["ai"];
    assert MatchedNamesAsWritten(os[..1], order, "python") == Ok(["ai"]);
  }

  lemma AiAiSet()
    ensures LowerSet(["AI", "ai"]) == {"ai"}
  {
    var os := ["AI", "ai"];
    assert os[..1] == ["AI"];
    assert os[..1][..0] == [];
    assert Lower(os[0]) == "ai";
    assert Lower(os[1]) == "ai";
  }

  /** Keywords "AI" and "ai" are both kept. */
  lemma AiAiKept()
    ensures Kept([Some("AI"), Some("ai")], MIN_KEYWORD_LENGTH) == ["AI", "ai"]
  {
    StripNoop("AI");
    StripNoop("ai");
    var ks := [Some("AI"), Some("ai")];
    assert ks[..1] == [Some("AI")];
    assert ks[..1][..0] == [];
  }

  /** Keywords "AI" and "ai" compile two patterns but leave one set element:
      the text "ai" matches both patterns, and the second lookup raises
      IndexError. */
  lemma AsWrittenIndexError()
    ensures IsEnumeration(["ai"], LowerSet(["AI", "ai"]))
    ensures Kept([Some("AI"), Some("ai")], MIN_KEYWORD_LENGTH) == ["AI", "ai"]
    ensures MatchedNamesAsWritten(["AI", "ai"], ["ai"], "ai") == Err(IndexError)
  {
    AiAiSet();
    AiAiKept();
    assert "ai"[0..2] == "ai";
    assert MatchAt(WordPattern("AI"), "ai", 0);
    assert MatchAt(WordPattern("ai"), "ai", 0);
    var os := ["AI", "ai"];
    assert os[..1] == ["AI"];
    assert os[..1][..0] == [];
  }

  /** With one set element per pattern (distinct lower-case keywords) the
      source never raises IndexError and reports one name per matching
      pattern, the same count as the corrected matcher. */
  lemma {:induction false} AsWrittenInRange(originals: seq<string>, order: seq<string>, t: string)
    requires |order| == |originals|
    ensures MatchedNamesAsWritten(originals, order, t).Ok?
    ensures |MatchedNamesAsWritten(originals, order, t).value| == |MatchedNames(originals, t)|
    decreases |originals|
  {
    if originals != [] {
      var n := |originals| - 1;
      AsWrittenInRange(originals[..n], order[..n], t);
      AsWrittenPrefixOrder(originals[..n], order, t);
    }
  }

  lemma {:induction false} AsWrittenPrefixOrder(originals: seq<string>, order: seq<string>, t: string)
    requires |originals| <= |order|
    ensures MatchedNamesAsWritten(originals, order, t) == MatchedNamesAsWritten(originals, order[..|originals|], t)
    decreases |originals|
  {
    if originals != [] {
      var n := |originals| - 1;
      AsWrittenPrefixOrder(originals[..n], order, t);
      AsWrittenPrefixOrder(originals[..n], order[..|originals|], t);
      assert order[..|originals|][..n] == order[..n];
    }
  }

  // ---------------------------------------------------------------------------
  // The filter pass over the article table

  /** Keyword texts of the enabled rules, in table order
      (`load_keywords_from_db`). */
  function EnabledKeywords(ks: seq<KeywordRule>): (r: seq<string>)
    ensures |r| <= |ks|
  {
    if ks == [] then []
    else
      var n := |ks| - 1;
      EnabledKeywords(ks[..n]) + (if ks[n].enabled then [ks[n].keyword] else [])
  }

  function AsInputs(ks: seq<string>): (r: seq<Option<string>>)
    ensures |r| == |ks|
    ensures forall i :: 0 <= i < |ks| ==> r[i] == Some(ks[i])
  {
    seq(|ks|, i requires 0 <= i < |ks| => Some(ks[i]))
  }

  /** The kept keywords of the matcher the filter pass builds. */
  function PassKeywords(ks: seq<KeywordRule>): seq<string> {
    Kept(AsInputs(EnabledKeywords(ks)), MIN_KEYWORD_LENGTH)
  }

  /** Articles the pass considers: not yet filtered and, when `articleIds`
      is non-empty, listed in it; in table order. */
  function Candidates(rows: seq<Article>, articleIds: seq<int>): (r: seq<Article>)
    ensures |r| <= |rows|
    ensures forall k :: 0 <= k < |r| ==> !r[k].isFiltered && r[k] in rows
  {
    if rows == [] then []
    else
      var n := |rows| - 1;
      var a := rows[n];
      Candidates(rows[..n], articleIds) +
        (if !a.isFiltered && (articleIds == [] || a.id in articleIds) then [a] else [])
  }

  lemma {:induction false} CandidatesExactly(rows: seq<Article>, articleIds: seq<int>)
    ensures forall a :: a in Candidates(rows, articleIds) <==>
      a in rows && !a.isFiltered && (articleIds == [] || a.id in articleIds)
    decreases |rows|
  {
    if rows != [] {
      var n := |rows| - 1;
      CandidatesExactly(rows[..n], articleIds);
      assert rows == rows[..n] + [rows[n]];
    }
  }

  /** Sets `is_filtered` on every row whose id is in `ids`. */
  function MarkFiltered(rows: seq<Article>, ids: seq<int>): (r: seq<Article>)
    ensures |r| == |rows|
  {
    seq(|rows|, i requires 0 <= i < |rows| =>
      if rows[i].id in ids then rows[i].(isFiltered := true) else rows[i])
  }

  /** `update_keyword_match_count(keyword, count)`: the enabled rule whose
      text is exactly `keyword` gains `count` matches; no such rule, no
      change. */
  function BumpRule(ks: seq<KeywordRule>, keyword: string, count: int): (r: seq<KeywordRule>)
    ensures |r| == |ks|
  {
    seq(|ks|, i requires 0 <= i < |ks| =>
      if ks[i].keyword == keyword && ks[i].enabled then ks[i].(matchCount := ks[i].matchCount + count) else ks[i])
  }

  /** Counter updates for one matched article, one per reported name. */
  function BumpAll(ks: seq<KeywordRule>, names: seq<string>): (r: seq<KeywordRule>)
    ensures |r| == |ks|
  {
    if names == [] then ks
    else BumpRule(BumpAll(ks, names[..|names| - 1]), names[|names| - 1], 1)
  }

  /** Counter updates for all matched articles, in order. */
  function BumpForArticles(ks: seq<KeywordRule>, originals: seq<string>, arts: seq<Article>): (r: seq<KeywordRule>)
    ensures |r| == |ks|
  {
    if arts == [] then ks
    else
      var n := |arts| - 1;
      BumpAll(BumpForArticles(ks, originals, arts[..n]), MatchedNames(originals, ArticleText(arts[n])))
  }

  function Occurrences(x: string, names: seq<string>): nat {
    if names == [] then 0
    else Occurrences(x, names[..|names| - 1]) + (if names[|names| - 1] == x then 1 else 0)
  }

  /** Total number of times `x` is reported over the matched articles. */
  function Reported(x: string, originals: seq<string>, arts: seq<Article>): nat {
    if arts == [] then 0
    else
      var n := |arts| - 1;
      Reported(x, originals, arts[..n]) + Occurrences(x, MatchedNames(originals, ArticleText(arts[n])))
  }

  /** Each enabled rule gains one match per time its exact text was
      reported; disabled rules and every other column stay as they were. */
  lemma {:induction false} BumpAllAt(ks: seq<KeywordRule>, names: seq<string>, j: int)
    requires 0 <= j < |ks|
    ensures BumpAll(ks, names)[j] ==
      ks[j].(matchCount := ks[j].matchCount + (if ks[j].enabled then Occurrences(ks[j].keyword, names) else 0))
    decreases |names|
  {
    if names != [] {
      BumpAllAt(ks, names[..|names| - 1], j);
    }
  }

  lemma {:induction false} BumpForArticlesAt(ks: seq<KeywordRule>, originals: seq<string>, arts: seq<Article>, j: int)
    requires 0 <= j < |ks|
    ensures BumpForArticles(ks, originals, arts)[j] ==
      ks[j].(matchCount := ks[j].matchCount + (if ks[j].enabled then Reported(ks[j].keyword, originals, arts) else 0))
    decreases |arts|
  {
    if arts != [] {
      var n := |arts| - 1;
      BumpForArticlesAt(ks, originals, arts[..n], j);
      BumpAllAt(BumpForArticles(ks, originals, arts[..n]), MatchedNames(originals, ArticleText(arts[n])), j);
    }
  }

  /** Among distinct kept keywords, a name is reported at most once per
      article, and exactly once when its own pattern matches. */
  lemma {:induction false} OccurrencesOfMatched(originals: seq<string>, t: string, x: string)
    requires forall i, j :: 0 <= i < j < |originals| ==> originals[i] != originals[j]
    ensures Occurrences(x, MatchedNames(originals, t)) == if x in originals && Search(WordPattern(x), t) then 1 else 0
    decreases |originals|
  {
    if originals != [] {
      var n := |originals| - 1;
      var init := originals[..n];
      OccurrencesOfMatched(init, t, x);
      var m := MatchedNames(init, t);
      var extra := if Search(WordPattern(originals[n]), t) then [originals[n]] else [];
      OccurrencesAppend(x, m, extra);
      assert originals == init + [originals[n]];
      if originals[n] == x {
        assert x !in init by {
          forall i | 0 <= i < n ensures init[i] != x { assert init[i] == originals[i]; }
        }
      }
    }
  }

  lemma {:induction false} OccurrencesAppend(x: string, a: seq<string>, b: seq<string>)
    ensures Occurrences(x, a + b) == Occurrences(x, a) + Occurrences(x, b)
    decreases |b|
  {
    if b == [] {
      assert a + b == a;
    } else {
      var n := |b| - 1;
      assert (a + b)[..|a + b| - 1] == a + b[..n];
      assert (a + b)[|a + b| - 1] == b[n];
      OccurrencesAppend(x, a, b[..n]);
      assert Occurrences(x, a + b) == Occurrences(x, a + b[..n]) + (if b[n] == x then 1 else 0);
    }
  }

  /** Number of articles in `arts` whose text matches keyword `x`. */
  function MatchingCount(x: string, arts: seq<Article>): nat {
    if arts == [] then 0
    else
      var n := |arts| - 1;
      MatchingCount(x, arts[..n]) + (if Search(WordPattern(x), ArticleText(arts[n])) then 1 else 0)
  }

  /** With distinct kept keywords, keyword `x` is reported once for each
      matched article whose text its pattern matches. */
  lemma {:induction false} ReportedIsMatchingCount(x: string, originals: seq<string>, arts: seq<Article>)
    requires forall i, j :: 0 <= i < j < |originals| ==> originals[i] != originals[j]
    requires x in originals
    ensures Reported(x, originals, arts) == MatchingCount(x, arts)
    decreases |arts|
  {
    if arts != [] {
      var n := |arts| - 1;
      ReportedIsMatchingCount(x, originals, arts[..n]);
      OccurrencesOfMatched(originals, ArticleText(arts[n]), x);
    }
  }

  /** The ids the pass returns: the matching candidates, or none at all when
      no keyword survives. */
  function FilterPassMatches(rows: seq<Article>, ks: seq<KeywordRule>, articleIds: seq<int>): seq<Article> {
    if PassKeywords(ks) == [] then []
    else MatchedArticles(PassKeywords(ks), Candidates(rows, articleIds))
  }

  /** The pass filters exactly the unfiltered candidates whose text matches
      some kept keyword, and nothing when the enabled rules keep no keyword. */
  lemma FilterPassExactly(rows: seq<Article>, ks: seq<KeywordRule>, articleIds: seq<int>)
    ensures PassKeywords(ks) == [] ==> FilterPassMatches(rows, ks, articleIds) == []
    ensures forall a :: a in FilterPassMatches(rows, ks, articleIds) <==>
      a in rows && !a.isFiltered && (articleIds == [] || a.id in articleIds) &&
      exists i :: 0 <= i < |PassKeywords(ks)| && Search(WordPattern(PassKeywords(ks)[i]), ArticleText(a))
  {
    var os := PassKeywords(ks);
    var cands := Candidates(rows, articleIds);
    CandidatesExactly(rows, articleIds);
    FilterPartition(os, cands);
    forall a ensures ArticleMatches(os, a) <==>
      exists i :: 0 <= i < |os| && Search(WordPattern(os[i]), ArticleText(a)) {
      MatchedNamesNonEmpty(os, ArticleText(a));
    }
  }

  /** A rule in a valid keyword table that the pass keeps (enabled, at
      least two characters) gains exactly one match per filtered article its
      pattern matches; counters never decrease. */
  lemma PassCounterEffect(ks: seq<KeywordRule>, matched: seq<Article>, j: int)
    requires KeywordTableOk(ks)
    requires 0 <= j < |ks|
    ensures BumpForArticles(ks, PassKeywords(ks), matched)[j].matchCount >= ks[j].matchCount
    ensures ks[j].enabled && |ks[j].keyword| >= MIN_KEYWORD_LENGTH ==>
      BumpForArticles(ks, PassKeywords(ks), matched)[j].matchCount == ks[j].matchCount + MatchingCount(ks[j].keyword, matched)
  {
    var os := PassKeywords(ks);
    BumpForArticlesAt(ks, os, matched, j);
    if ks[j].enabled && |ks[j].keyword| >= MIN_KEYWORD_LENGTH {
      PassKeywordsOfValidTable(ks);
      EnabledKeywordsHas(ks, j);
      ReportedIsMatchingCount(ks[j].keyword, os, matched);
    }
  }

  lemma {:induction false} EnabledKeywordsHas(ks: seq<KeywordRule>, j: int)
    requires 0 <= j < |ks| && ks[j].enabled
    ensures ks[j].keyword in EnabledKeywords(ks)
    decreases |ks|
  {
    var n := |ks| - 1;
    if j < n {
      EnabledKeywordsHas(ks[..n], j);
    }
  }

  /** Every enabled keyword text comes from some rule. */
  lemma {:induction false} EnabledKeywordsFrom(ks: seq<KeywordRule>, x: string)
    requires x in EnabledKeywords(ks)
    ensures exists j :: 0 <= j < |ks| && ks[j].enabled && ks[j].keyword == x
    decreases |ks|
  {
    var n := |ks| - 1;
    var init := ks[..n];
    if x in EnabledKeywords(init) {
      EnabledKeywordsFrom(init, x);
      var j :| 0 <= j < |init| && init[j].enabled && init[j].keyword == x;
      assert ks[j] == init[j];
    }
  }

  /** With pairwise distinct rule texts, the enabled texts are pairwise
      distinct too. */
  lemma {:induction false} EnabledKeywordsDistinct(ks: seq<KeywordRule>)
    requires forall i, j :: 0 <= i < j < |ks| ==> ks[i].keyword != ks[j].keyword
    ensures forall a, b :: 0 <= a < b < |EnabledKeywords(ks)| ==> EnabledKeywords(ks)[a] != EnabledKeywords(ks)[b]
    decreases |ks|
  {
    if ks != [] {
      var n := |ks| - 1;
      var init := ks[..n];
      EnabledKeywordsDistinct(init);
      var e := EnabledKeywords(init);
      if ks[n].enabled {
        if ks[n].keyword in e {
          EnabledKeywordsFrom(init, ks[n].keyword);
          assert false;
        }
        assert EnabledKeywords(ks) == e + [ks[n].keyword];
      }
    }
  }

  /** In a valid keyword table every enabled text is already stripped, so
      the matcher keeps exactly the enabled rules of two or more characters,
      with distinct texts. */
  lemma PassKeywordsOfValidTable(ks: seq<KeywordRule>)
    requires KeywordTableOk(ks)
    ensures forall i, j :: 0 <= i < j < |PassKeywords(ks)| ==> PassKeywords(ks)[i] != PassKeywords(ks)[j]
    ensures forall j :: 0 <= j < |ks| && ks[j].enabled && |ks[j].keyword| >= MIN_KEYWORD_LENGTH ==>
      ks[j].keyword in PassKeywords(ks)
  {
    var e := EnabledKeywords(ks);
    forall i | 0 <= i < |e| ensures Strip(e[i]) == e[i] {
      EnabledKeywordsFrom(ks, e[i]);
      NormalizedIsStripped(e[i]);
    }
    EnabledKeywordsDistinct(ks);
    KeptOfStrippedDistinct(AsInputs(e), e);
    forall j | 0 <= j < |ks| && ks[j].enabled && |ks[j].keyword| >= MIN_KEYWORD_LENGTH
      ensures ks[j].keyword in PassKeywords(ks)
    {
      var x := ks[j].keyword;
      EnabledKeywordsHas(ks, j);
      var i :| 0 <= i < |e| && e[i] == x;
      StripShape(x);
      assert KeepKeyword(AsInputs(e)[i], MIN_KEYWORD_LENGTH) == Some(x);
      KeptComplete(AsInputs(e), MIN_KEYWORD_LENGTH, i);
    }
  }

  lemma NormalizedIsStripped(x: string)
    requires Normalize(x) == x
    ensures Strip(x) == x
  {
    var t := Strip(x);
    StripLower(t);
    StripIdempotent(x);
    assert Strip(Lower(t)) == Lower(Strip(t));
  }

  /** Keeping from distinct stripped keywords gives distinct keywords. */
  lemma {:induction false} KeptOfStrippedDistinct(inputs: seq<Option<string>>, e: seq<string>)
    requires |inputs| == |e|
    requires forall i :: 0 <= i < |e| ==> inputs[i] == Some(e[i]) && Strip(e[i]) == e[i]
    requires forall i, j :: 0 <= i < j < |e| ==> e[i] != e[j]
    ensures forall i, j :: 0 <= i < j < |Kept(inputs, MIN_KEYWORD_LENGTH)| ==>
      Kept(inputs, MIN_KEYWORD_LENGTH)[i] != Kept(inputs, MIN_KEYWORD_LENGTH)[j]
    ensures forall x :: x in Kept(inputs, MIN_KEYWORD_LENGTH) ==> x in e
    decreases |e|
  {
    if e != [] {
      var n := |e| - 1;
      KeptOfStrippedDistinct(inputs[..n], e[..n]);
      var init := Kept(inputs[..n], MIN_KEYWORD_LENGTH);
      assert inputs[..|inputs| - 1] == inputs[..n];
      var last := KeepKeyword(inputs[n], MIN_KEYWORD_LENGTH);
      if last.Some? {
        assert last.value == e[n];
        assert e[n] !in init by {
          forall x | x in init ensures x != e[n] {
            assert x in e[..n];
          }
        }
      }
      forall x | x in Kept(inputs, MIN_KEYWORD_LENGTH) ensures x in e {
        if x in init { assert x in e[..n]; }
      }
    }
  }

  // ---------------------------------------------------------------------------
  // The pass itself

  /** `update_keyword_match_count`. */
  method UpdateKeywordMatchCount(db: Db, keyword: string, count: int)
    modifies db
    ensures db.keywords == BumpRule(old(db.keywords), keyword, count)
    ensures db.articles == old(db.articles)
    ensures db.sources == old(db.sources) && db.nextArticleId == old(db.nextArticleId)
    ensures db.webhookConfig == old(db.webhookConfig) && db.aiSettings == old(db.aiSettings)
    ensures db.aiFilterConfig == old(db.aiFilterConfig)
  {
    db.keywords := BumpRule(db.keywords, keyword, count);
  }

  lemma BumpRuleKeepsTable(ks: seq<KeywordRule>, keyword: string, count: int)
    requires KeywordTableOk(ks)
    ensures KeywordTableOk(BumpRule(ks, keyword, count))
  {
    var r := BumpRule(ks, keyword, count);
    assert forall i :: 0 <= i < |ks| ==> r[i].id == ks[i].id && r[i].keyword == ks[i].keyword;
  }

  lemma {:induction false} BumpAllKeepsTable(ks: seq<KeywordRule>, names: seq<string>)
    requires KeywordTableOk(ks)
    ensures KeywordTableOk(BumpAll(ks, names))
    decreases |names|
  {
    if names != [] {
      BumpAllKeepsTable(ks, names[..|names| - 1]);
      BumpRuleKeepsTable(BumpAll(ks, names[..|names| - 1]), names[|names| - 1], 1);
    }
  }

  lemma {:induction false} BumpForArticlesKeepsTable(ks: seq<KeywordRule>, originals: seq<string>, arts: seq<Article>)
    requires KeywordTableOk(ks)
    ensures KeywordTableOk(BumpForArticles(ks, originals, arts))
    decreases |arts|
  {
    if arts != [] {
      var n := |arts| - 1;
      BumpForArticlesKeepsTable(ks, originals, arts[..n]);
      BumpAllKeepsTable(BumpForArticles(ks, originals, arts[..n]), MatchedNames(originals, ArticleText(arts[n])));
    }
  }

  lemma BumpForArticlesSnoc(ks: seq<KeywordRule>, originals: seq<string>, arts: seq<Article>, i: int)
    requires 0 <= i < |arts|
    ensures BumpForArticles(ks, originals, arts[..i + 1])
         == BumpAll(BumpForArticles(ks, originals, arts[..i]), MatchedNames(originals, ArticleText(arts[i])))
  {
    assert arts[..i + 1][..i] == arts[..i];
  }

  lemma MarkFilteredSnoc(rows: seq<Article>, ids: seq<int>, x: int)
    ensures MarkFiltered(MarkFiltered(rows, ids), [x]) == MarkFiltered(rows, ids + [x])
  {
  }

  lemma MarkFilteredKeepsTable(rows: seq<Article>, next: int, ids: seq<int>)
    requires ArticleIdsOk(rows, next) && NaturalKeysUnique(rows)
    ensures ArticleIdsOk(MarkFiltered(rows, ids), next) && NaturalKeysUnique(MarkFiltered(rows, ids))
  {
    var r := MarkFiltered(rows, ids);
    assert forall i :: 0 <= i < |rows| ==> r[i].id == rows[i].id && r[i].sourceId == rows[i].sourceId && r[i].guid == rows[i].guid;
  }

  /** The inner loop of the pass: one counter update per reported name. */
  method BumpMatchedKeywords(db: Db, names: seq<string>)
    modifies db
    ensures db.keywords == BumpAll(old(db.keywords), names)
    ensures db.articles == old(db.articles)
    ensures db.sources == old(db.sources) && db.nextArticleId == old(db.nextArticleId)
    ensures db.webhookConfig == old(db.webhookConfig) && db.aiSettings == old(db.aiSettings)
    ensures db.aiFilterConfig == old(db.aiFilterConfig)
  {
    var k := 0;
    while k < |names|
      invariant 0 <= k <= |names|
      invariant db.keywords == BumpAll(old(db.keywords), names[..k])
      invariant db.articles == old(db.articles)
      invariant db.sources == old(db.sources) && db.nextArticleId == old(db.nextArticleId)
      invariant db.webhookConfig == old(db.webhookConfig) && db.aiSettings == old(db.aiSettings)
      invariant db.aiFilterConfig == old(db.aiFilterConfig)
    {
      assert names[..k + 1][..k] == names[..k];
      UpdateKeywordMatchCount(db, names[k], 1);
      k := k + 1;
    }
    assert names[..k] == names;
  }

  /** The marking loop of the pass: each matched article is flagged, its id
      recorded and its reported keywords counted. */
  method MarkMatched(db: Db, kf: KeywordFilter, matched: seq<Article>) returns (filteredIds: seq<int>)
    requires kf.Valid()
    modifies db
    ensures filteredIds == ArticleIds(matched)
    ensures db.articles == MarkFiltered(old(db.articles), filteredIds)
    ensures db.keywords == BumpForArticles(old(db.keywords), kf.originals, matched)
    ensures db.nextArticleId == old(db.nextArticleId)
    ensures db.sources == old(db.sources) && db.webhookConfig == old(db.webhookConfig)
    ensures db.aiSettings == old(db.aiSettings) && db.aiFilterConfig == old(db.aiFilterConfig)
  {
    filteredIds := [];
    var i := 0;
    while i < |matched|
      invariant 0 <= i <= |matched|
      invariant filteredIds == ArticleIds(matched[..i])
      invariant db.articles == MarkFiltered(old(db.articles), filteredIds)
      invariant db.keywords == BumpForArticles(old(db.keywords), kf.originals, matched[..i])
      invariant db.nextArticleId == old(db.nextArticleId)
      invariant db.sources == old(db.sources) && db.webhookConfig == old(db.webhookConfig)
      invariant db.aiSettings == old(db.aiSettings) && db.aiFilterConfig == old(db.aiFilterConfig)
    {
      var article := matched[i];
      MarkFilteredSnoc(old(db.articles), filteredIds, article.id);
      db.articles := MarkFiltered(db.articles, [article.id]);
      filteredIds := filteredIds + [article.id];
      var _, names, _ := kf.Matches(ArticleText(article));
      BumpMatchedKeywords(db, names);
      assert matched[..i + 1][..i] == matched[..i];
      assert matched[..i + 1][i] == article;
      assert ArticleIds(matched[..i + 1]) == ArticleIds(matched[..i]) + [article.id];
      BumpForArticlesSnoc(old(db.keywords), kf.originals, matched, i);
      i := i + 1;
    }
    assert matched[..i] == matched;
  }

  /** `filter_articles_by_keywords(article_ids)`: marks the matching
      unfiltered candidates as filtered, returns their ids in order and bumps
      the counter of every keyword reported for each of them. */
  method FilterArticlesByKeywords(db: Db, articleIds: seq<int>) returns (filteredIds: seq<int>)
    requires db.Valid()
    modifies db
    ensures db.Valid()
    ensures filteredIds == ArticleIds(FilterPassMatches(old(db.articles), old(db.keywords), articleIds))
    ensures db.articles == MarkFiltered(old(db.articles), filteredIds)
    ensures db.keywords == BumpForArticles(old(db.keywords), PassKeywords(old(db.keywords)),
                                           FilterPassMatches(old(db.articles), old(db.keywords), articleIds))
    ensures db.nextArticleId == old(db.nextArticleId)
    ensures db.sources == old(db.sources) && db.webhookConfig == old(db.webhookConfig)
    ensures db.aiSettings == old(db.aiSettings) && db.aiFilterConfig == old(db.aiFilterConfig)
  {
    var kf := new KeywordFilter(Some(AsInputs(EnabledKeywords(db.keywords))), MIN_KEYWORD_LENGTH);
    if kf.KeywordCount() == 0 {
      assert MarkFiltered(db.articles, []) == db.articles;
      return [];
    }
    var candidates := Candidates(db.articles, articleIds);
    var matched, _ := kf.FilterArticles(candidates);
    ghost var rows0 := db.articles;
    ghost var ks0 := db.keywords;
    filteredIds := MarkMatched(db, kf, matched);
    MarkFilteredKeepsTable(rows0, db.nextArticleId, filteredIds);
    BumpForArticlesKeepsTable(ks0, kf.originals, matched);
  }
}
