/** The keyword-rule endpoints (app/routes/keywords.py) as operations on the
    keyword table: create, update, delete, toggle and bulk delete, with the
    400 and 404 answers they give. Each one keeps the table's invariant:
    increasing ids, normalised and pairwise distinct texts. */
module KeywordRoutes {
  import opened Common
  import opened Store

  const EMPTY_KEYWORD := "关键词不能为空"
  const DUPLICATE_KEYWORD := "该关键词已存在"
  const KEYWORD_NOT_FOUND := "关键词不存在"


  /** The row `select ... where id == id` loads. */
  function FindRule(ks: seq<KeywordRule>, id: int): (r: Option<nat>)
    ensures r.Some? ==> r.value < |ks| && ks[r.value].id == id
    ensures r.None? ==> forall i :: 0 <= i < |ks| ==> ks[i].id != id
    decreases |ks|
  {
    if ks == [] then None
    else if ks[0].id == id then Some(0)
    else
      match FindRule(ks[1..], id)
      case None => None
      case Some(i) => Some(i + 1)
  }

  /** Tables with the same ids in the same places find the same row. */
  lemma {:induction false} FindRuleSameIds(ks: seq<KeywordRule>, ks': seq<KeywordRule>, id: int)
    requires |ks| == |ks'| && forall i :: 0 <= i < |ks| ==> ks[i].id == ks'[i].id
    ensures FindRule(ks, id) == FindRule(ks', id)
    decreases |ks|
  {
    if ks != [] && ks[0].id != id {
      FindRuleSameIds(ks[1..], ks'[1..], id);
    }
  }

  /** A row other than `except` already holds `text`. */
  predicate TextTaken(ks: seq<KeywordRule>, text: string, except: Option<int>) {
    exists i :: 0 <= i < |ks| && ks[i].keyword == text && (except.None? || ks[i].id != except.value)
  }

  /** `get_keyword`. */
  function GetRule(ks: seq<KeywordRule>, id: int): (r: Result<KeywordRule, HttpError>)
    ensures r.Ok? <==> exists i :: 0 <= i < |ks| && ks[i].id == id
    ensures r.Ok? ==> r.value in ks && r.value.id == id
    ensures r.Err? ==> r.error == NotFound(KEYWORD_NOT_FOUND)
  {
    match FindRule(ks, id)
    case None => Err(NotFound(KEYWORD_NOT_FOUND))
    case Some(i) => Ok(ks[i])
  }

  // ---------------------------------------------------------------------------
  // The table after each endpoint

  /** `create_keyword`: the table with the new row, under the id the
      database assigns. */
  function CreateRule(ks: seq<KeywordRule>, keyword: string, enabled: bool): (r: Result<seq<KeywordRule>, HttpError>)
    ensures r.Ok? ==> |r.value| == |ks| + 1 && r.value[..|ks|] == ks
    ensures r.Ok? ==> forall i :: 0 <= i < |ks| ==> ks[i].id < r.value[|ks|].id && ks[i].keyword != r.value[|ks|].keyword
  {
    var text := Normalize(keyword);
    if text == [] then Err(BadRequest(EMPTY_KEYWORD))
    else if TextTaken(ks, text, None) then Err(BadRequest(DUPLICATE_KEYWORD))
    else Ok(ks + [KeywordRule(NextKeywordId(ks), text, enabled, 0)])
  }

  /** `update_keyword`: the text is checked against the other rows only when
      it changes; `enabled` changes only when supplied. */
  function UpdateRule(ks: seq<KeywordRule>, id: int, keyword: Option<string>, enabled: Option<bool>): (r: Result<seq<KeywordRule>, HttpError>)
    ensures r.Ok? ==> |r.value| == |ks| && forall i :: 0 <= i < |ks| ==> r.value[i].id == ks[i].id && r.value[i].matchCount == ks[i].matchCount
  {
    match FindRule(ks, id)
    case None => Err(NotFound(KEYWORD_NOT_FOUND))
    case Some(i) =>
      var row := ks[i];
      if keyword.Some? && Normalize(keyword.value) != row.keyword && TextTaken(ks, Normalize(keyword.value), Some(id)) then
        Err(BadRequest(DUPLICATE_KEYWORD))
      else
        var text := if keyword.Some? then Normalize(keyword.value) else row.keyword;
        var on := if enabled.Some? then enabled.value else row.enabled;
        Ok(ks[i := row.(keyword := text, enabled := on)])
  }

  /** `delete_keyword`. */
  function DeleteRule(ks: seq<KeywordRule>, id: int): (r: Result<seq<KeywordRule>, HttpError>)
    ensures r.Ok? ==> |r.value| == |ks| - 1
  {
    match FindRule(ks, id)
    case None => Err(NotFound(KEYWORD_NOT_FOUND))
    case Some(i) => Ok(ks[..i] + ks[i + 1..])
  }

  /** `toggle_keyword`. */
  function ToggleRule(ks: seq<KeywordRule>, id: int): (r: Result<seq<KeywordRule>, HttpError>)
    ensures r.Ok? ==> |r.value| == |ks| && forall i :: 0 <= i < |ks| ==> r.value[i].id == ks[i].id && r.value[i].keyword == ks[i].keyword
  {
    match FindRule(ks, id)
    case None => Err(NotFound(KEYWORD_NOT_FOUND))
    case Some(i) => Ok(ks[i := ks[i].(enabled := !ks[i].enabled)])
  }

  /** The rows `bulk_delete_keywords` leaves: those whose id is not listed. */
  function Unlisted(ks: seq<KeywordRule>, ids: seq<int>): (r: seq<KeywordRule>)
    ensures |r| <= |ks|
    ensures forall x :: x in r <==> x in ks && x.id !in ids
    decreases |ks|
  {
    if ks == [] then []
    else
      var init := Unlisted(ks[..|ks| - 1], ids);
      var last := ks[|ks| - 1];
      assert forall x :: x in ks <==> x in ks[..|ks| - 1] || x == last;
      if last.id in ids then init else init + [last]
  }

  /** The number of rows `select ... where id in ids` loads. */
  function ListedCount(ks: seq<KeywordRule>, ids: seq<int>): (n: nat)
    decreases |ks|
  {
    if ks == [] then 0
    else ListedCount(ks[..|ks| - 1], ids) + (if ks[|ks| - 1].id in ids then 1 else 0)
  }

  // ---------------------------------------------------------------------------
  // What each endpoint guarantees

  /** Appending a row with a larger id and a new normalised text keeps the
      table well formed. */
  lemma AppendOk(ks: seq<KeywordRule>, row: KeywordRule)
    requires KeywordTableOk(ks)
    requires forall i :: 0 <= i < |ks| ==> ks[i].id < row.id && ks[i].keyword != row.keyword
    requires Normalize(row.keyword) == row.keyword
    ensures KeywordTableOk(ks + [row])
  {
    var ks' := ks + [row];
    forall i, j | 0 <= i < j < |ks'| ensures ks'[i].id < ks'[j].id && ks'[i].keyword != ks'[j].keyword {
      assert ks'[i] == ks[i];
      assert ks'[j] == if j < |ks| then ks[j] else row;
    }
    forall i | 0 <= i < |ks'| ensures Normalize(ks'[i].keyword) == ks'[i].keyword {
      assert ks'[i] == if i < |ks| then ks[i] else row;
    }
  }

  /** Replacing a row by one with the same id and a normalised text no other
      row holds keeps the table well formed. */
  lemma ReplaceAtOk(ks: seq<KeywordRule>, p: nat, row: KeywordRule)
    requires KeywordTableOk(ks) && p < |ks|
    requires row.id == ks[p].id && Normalize(row.keyword) == row.keyword
    requires forall i :: 0 <= i < |ks| && i != p ==> ks[i].keyword != row.keyword
    ensures KeywordTableOk(ks[p := row])
  {
  }

  /** A created row gets the next id, the normalised text, the requested
      `enabled` and a zero counter; a blank text or one already present is
      refused with 400; and the table stays well formed. */
  lemma CreateRuleSpec(ks: seq<KeywordRule>, keyword: string, enabled: bool)
    requires KeywordTableOk(ks)
    ensures var r := CreateRule(ks, keyword, enabled);
      && (AllSpace(keyword) ==> r == Err(BadRequest(EMPTY_KEYWORD)))
      && (!AllSpace(keyword) && (exists i :: 0 <= i < |ks| && ks[i].keyword == Normalize(keyword)) ==>
            r == Err(BadRequest(DUPLICATE_KEYWORD)))
      && (r.Ok? ==> r.value == ks + [KeywordRule(NextKeywordId(ks), Normalize(keyword), enabled, 0)] && KeywordTableOk(r.value))
      && (r.Err? ==> r.error.BadRequest?)
  {
    StripShape(keyword);
    NormalizeIdempotent(keyword);
    var r := CreateRule(ks, keyword, enabled);
    if r.Ok? {
      AppendOk(ks, KeywordRule(NextKeywordId(ks), Normalize(keyword), enabled, 0));
    }
  }

  /** Texts stay unique: once a text is created, creating any keyword that
      normalises to it again is refused. */
  lemma CreateTwiceRefused(ks: seq<KeywordRule>, keyword: string, again: string, enabled: bool, enabled': bool)
    requires CreateRule(ks, keyword, enabled).Ok?
    requires Normalize(again) == Normalize(keyword)
    ensures CreateRule(CreateRule(ks, keyword, enabled).value, again, enabled') == Err(BadRequest(DUPLICATE_KEYWORD))
  {
    var ks' := CreateRule(ks, keyword, enabled).value;
    assert ks'[|ks|].keyword == Normalize(again);
  }

  /** In a well-formed table the next id is one more than the id of the
      last row. */
  lemma NextIdAfterTop(ks: seq<KeywordRule>)
    requires KeywordTableOk(ks) && ks != []
    ensures NextKeywordId(ks) == ks[|ks| - 1].id + 1
  {
    if |ks| > 1 {
      var init := ks[..|ks| - 1];
      var i :| 0 <= i < |init| && NextKeywordId(init) == init[i].id + 1;
      assert init[i] == ks[i];
    }
  }

  /** Ids are not kept for good: create "a" and "b", delete "b", and the
      next created keyword gets "b"'s id 2 again. */
  lemma CreateReusesDeletedId()
    ensures CreateRule([], "a", true) == Ok([KeywordRule(1, "a", true, 0)])
    ensures CreateRule([KeywordRule(1, "a", true, 0)], "b", true)
         == Ok([KeywordRule(1, "a", true, 0), KeywordRule(2, "b", true, 0)])
    ensures DeleteRule([KeywordRule(1, "a", true, 0), KeywordRule(2, "b", true, 0)], 2)
         == Ok([KeywordRule(1, "a", true, 0)])
    ensures CreateRule([KeywordRule(1, "a", true, 0)], "c", true)
         == Ok([KeywordRule(1, "a", true, 0), KeywordRule(2, "c", true, 0)])
  {
    var t1 := [KeywordRule(1, "a", true, 0)];
    var t2 := [KeywordRule(1, "a", true, 0), KeywordRule(2, "b", true, 0)];
    CreateOneLetter(t1, [], 'a', 1);
    assert t1[..0] == [];
    assert NextKeywordId(t1) == 2;
    CreateOneLetter(t2, t1, 'b', 2);
    CreateOneLetter([KeywordRule(1, "a", true, 0), KeywordRule(2, "c", true, 0)], t1, 'c', 2);
    assert FindRule(t2, 2) == Some(1);
    assert t2[..1] + t2[2..] == t1;
  }

  /** Creating a one-letter keyword absent from `ks` appends it under the
      next id. */
  lemma CreateOneLetter(after: seq<KeywordRule>, ks: seq<KeywordRule>, c: char, id: int)
    requires 'a' <= c <= 'z'
    requires forall i :: 0 <= i < |ks| ==> ks[i].keyword != [c]
    requires NextKeywordId(ks) == id && after == ks + [KeywordRule(id, [c], true, 0)]
    ensures CreateRule(ks, [c], true) == Ok(after)
  {
    StripNoop([c]);
    assert Normalize([c]) == [c];
  }

  /** An update keeps the table well formed, leaves every other row as it
      was, and refuses a text another row holds; a missing id is 404. */
  lemma UpdateRuleSpec(ks: seq<KeywordRule>, id: int, keyword: Option<string>, enabled: Option<bool>)
    requires KeywordTableOk(ks)
    ensures var r := UpdateRule(ks, id, keyword, enabled);
      && ((forall i :: 0 <= i < |ks| ==> ks[i].id != id) <==> r == Err(NotFound(KEYWORD_NOT_FOUND)))
      && (r.Ok? ==> KeywordTableOk(r.value) && |r.value| == |ks|)
      && (r.Ok? ==> forall i :: 0 <= i < |ks| ==>
            if ks[i].id == id then
              r.value[i] == ks[i].(keyword := if keyword.Some? then Normalize(keyword.value) else ks[i].keyword,
                                   enabled := if enabled.Some? then enabled.value else ks[i].enabled)
            else r.value[i] == ks[i])
      && ((keyword.Some? && (exists i :: 0 <= i < |ks| && ks[i].id != id && ks[i].keyword == Normalize(keyword.value)) &&
           (exists i :: 0 <= i < |ks| && ks[i].id == id)) ==> r == Err(BadRequest(DUPLICATE_KEYWORD)))
  {
    var r := UpdateRule(ks, id, keyword, enabled);
    match FindRule(ks, id)
    case None =>
    case Some(p) =>
      assert forall i :: 0 <= i < |ks| && i != p ==> ks[i].id != id;
      if keyword.Some? {
        NormalizeIdempotent(keyword.value);
      }
      var r := UpdateRule(ks, id, keyword, enabled);
      if r.Ok? {
        ReplaceAtOk(ks, p, r.value[p]);
      }
  }

  /** Unlike creation, an update may store an empty text when no other row
      holds one. */
  lemma UpdateAcceptsBlank(ks: seq<KeywordRule>, id: int)
    requires exists i :: 0 <= i < |ks| && ks[i].id == id
    requires forall i :: 0 <= i < |ks| ==> ks[i].keyword != []
    ensures UpdateRule(ks, id, Some("  "), None).Ok?
    ensures var p := FindRule(ks, id).value; UpdateRule(ks, id, Some("  "), None).value[p].keyword == []
    ensures CreateRule(ks, "  ", true) == Err(BadRequest(EMPTY_KEYWORD))
  {
    assert Normalize("  ") == [] by { StripShape("  "); }
  }

  /** Ids are unique: no other row has the id of row `p`. */
  lemma UniqueId(ks: seq<KeywordRule>, p: nat)
    requires KeywordTableOk(ks) && p < |ks|
    ensures forall j :: 0 <= j < |ks| && j != p ==> ks[j].id != ks[p].id
  {
  }

  /** The position in the old table of position `i` after removing `p`. */
  function Skip(i: nat, p: nat): (k: nat)
    ensures i <= k <= i + 1 && k != p
  {
    if i < p then i else i + 1
  }

  /** Position `i` after removing `p` holds the row at `Skip(i, p)`. */
  lemma RemovedAt(ks: seq<KeywordRule>, p: nat, i: nat)
    requires p < |ks| && i < |ks| - 1
    ensures Skip(i, p) < |ks| && (ks[..p] + ks[p + 1..])[i] == ks[Skip(i, p)]
  {
  }

  /** Removing one row keeps the table well formed. */
  lemma RemoveAtOk(ks: seq<KeywordRule>, p: nat)
    requires KeywordTableOk(ks) && p < |ks|
    ensures KeywordTableOk(ks[..p] + ks[p + 1..])
  {
    var ks' := ks[..p] + ks[p + 1..];
    forall i, j | 0 <= i < j < |ks'| ensures ks'[i].id < ks'[j].id && ks'[i].keyword != ks'[j].keyword {
      RemovedAt(ks, p, i);
      RemovedAt(ks, p, j);
    }
    forall i | 0 <= i < |ks'| ensures Normalize(ks'[i].keyword) == ks'[i].keyword {
      RemovedAt(ks, p, i);
    }
  }

  /** Removing the row at `p`, whose id no other row has, leaves exactly the
      rows with another id. */
  lemma RemoveAtMembers(ks: seq<KeywordRule>, p: nat)
    requires p < |ks|
    requires forall i :: 0 <= i < |ks| && i != p ==> ks[i].id != ks[p].id
    ensures forall x :: x in ks[..p] + ks[p + 1..] <==> x in ks && x.id != ks[p].id
  {
    var ks' := ks[..p] + ks[p + 1..];
    assert forall i :: 0 <= i < |ks'| ==> ks'[i] == ks[if i < p then i else i + 1];
    forall x | x in ks && x.id != ks[p].id ensures x in ks' {
      var i :| 0 <= i < |ks| && ks[i] == x;
      assert x == ks'[if i < p then i else i - 1];
    }
  }

  /** Deleting removes exactly the row with that id and keeps the table well
      formed; a missing id is 404. */
  lemma DeleteRuleSpec(ks: seq<KeywordRule>, id: int)
    requires KeywordTableOk(ks)
    ensures var r := DeleteRule(ks, id);
      && ((forall i :: 0 <= i < |ks| ==> ks[i].id != id) <==> r == Err(NotFound(KEYWORD_NOT_FOUND)))
      && (r.Ok? ==> KeywordTableOk(r.value) && |r.value| == |ks| - 1)
      && (r.Ok? ==> forall x :: x in r.value <==> x in ks && x.id != id)
  {
    match FindRule(ks, id)
    case None =>
    case Some(p) =>
      var rest := ks[..p] + ks[p + 1..];
      assert DeleteRule(ks, id) == Ok(rest);
      assert ks[p].id == id;
      RemoveAtOk(ks, p);
      assert forall i :: 0 <= i < |ks| && i != p ==> ks[i].id != ks[p].id;
      RemoveAtMembers(ks, p);
  }

  /** Toggling twice restores the table; once, it flips exactly that row's
      `enabled`. */
  lemma ToggleRuleTwice(ks: seq<KeywordRule>, id: int)
    ensures var r := ToggleRule(ks, id);
      && ((forall i :: 0 <= i < |ks| ==> ks[i].id != id) <==> r == Err(NotFound(KEYWORD_NOT_FOUND)))
      && (r.Ok? ==> ToggleRule(r.value, id) == Ok(ks))
      && (r.Ok? ==> |r.value| == |ks| && forall i :: 0 <= i < |ks| ==> r.value[i].(enabled := ks[i].enabled) == ks[i])
  {
    var r := ToggleRule(ks, id);
    if r.Ok? {
      var p := FindRule(ks, id).value;
      FindRuleSameIds(ks, r.value, id);
      assert r.value[p := r.value[p].(enabled := !r.value[p].enabled)] == ks;
    }
  }

  /** A bulk delete keeps the table well formed, removes exactly the listed
      ids, and reports as many rows as it removed; unknown ids are ignored. */
  lemma {:induction false} BulkDeleteSpec(ks: seq<KeywordRule>, ids: seq<int>)
    requires KeywordTableOk(ks)
    ensures KeywordTableOk(Unlisted(ks, ids))
    ensures ListedCount(ks, ids) + |Unlisted(ks, ids)| == |ks|
    decreases |ks|
  {
    if ks != [] {
      var init := ks[..|ks| - 1];
      var last := ks[|ks| - 1];
      assert KeywordTableOk(init) by {
        assert forall i :: 0 <= i < |init| ==> init[i] == ks[i];
      }
      BulkDeleteSpec(init, ids);
      var u := Unlisted(init, ids);
      if last.id !in ids {
        forall i | 0 <= i < |u| ensures u[i].id < last.id && u[i].keyword != last.keyword {
          assert u[i] in init;
          var k :| 0 <= k < |init| && init[k] == u[i];
          assert ks[k] == u[i];
        }
        AppendOk(u, last);
      }
    }
  }

  // ---------------------------------------------------------------------------
  // The endpoints on the session

  /** `create_keyword`. */
  method CreateKeyword(db: Db, keyword: string, enabled: bool) returns (r: Result<KeywordRule, HttpError>)
    requires db.Valid()
    modifies db
    ensures db.Valid()
    ensures var c := CreateRule(old(db.keywords), keyword, enabled);
      && (c.Err? ==> r == Err(c.error) && db.keywords == old(db.keywords))
      && (c.Ok? ==> db.keywords == c.value &&
                    r == Ok(KeywordRule(NextKeywordId(old(db.keywords)), Normalize(keyword), enabled, 0)))
    ensures db.articles == old(db.articles) && db.nextArticleId == old(db.nextArticleId) && db.sources == old(db.sources)
    ensures db.webhookConfig == old(db.webhookConfig) && db.aiSettings == old(db.aiSettings)
    ensures db.aiFilterConfig == old(db.aiFilterConfig)
  {
    var text := Normalize(keyword);
    if text == [] {
      return Err(BadRequest(EMPTY_KEYWORD));
    }
    if TextTaken(db.keywords, text, None) {
      return Err(BadRequest(DUPLICATE_KEYWORD));
    }
    CreateRuleSpec(db.keywords, keyword, enabled);
    var row := KeywordRule(NextKeywordId(db.keywords), text, enabled, 0);
    db.keywords := db.keywords + [row];
    r := Ok(row);
  }

  /** `update_keyword`. */
  method UpdateKeyword(db: Db, id: int, keyword: Option<string>, enabled: Option<bool>) returns (r: Result<KeywordRule, HttpError>)
    requires db.Valid()
    modifies db
    ensures db.Valid()
    ensures var u := UpdateRule(old(db.keywords), id, keyword, enabled);
      && (u.Err? ==> r == Err(u.error) && db.keywords == old(db.keywords))
      && (u.Ok? ==> db.keywords == u.value && r.Ok? && r.value.id == id && r.value in db.keywords)
    ensures db.articles == old(db.articles) && db.nextArticleId == old(db.nextArticleId) && db.sources == old(db.sources)
    ensures db.webhookConfig == old(db.webhookConfig) && db.aiSettings == old(db.aiSettings)
    ensures db.aiFilterConfig == old(db.aiFilterConfig)
  {
    var found := FindRule(db.keywords, id);
    if found.None? {
      return Err(NotFound(KEYWORD_NOT_FOUND));
    }
    var i := found.value;
    var row := db.keywords[i];
    var ks := db.keywords;
    if keyword.Some? {
      var text := Normalize(keyword.value);
      if text != row.keyword && TextTaken(db.keywords, text, Some(id)) {
        return Err(BadRequest(DUPLICATE_KEYWORD));
      }
      NormalizeIdempotent(keyword.value);
      row := row.(keyword := text);
    }
    if enabled.Some? {
      row := row.(enabled := enabled.value);
    }
    UniqueId(ks, i);
    ReplaceAtOk(ks, i, row);
    db.keywords := ks[i := row];
    assert db.keywords[i] == row;
    r := Ok(row);
  }

  /** `delete_keyword`. */
  method DeleteKeyword(db: Db, id: int) returns (r: Result<(), HttpError>)
    requires db.Valid()
    modifies db
    ensures db.Valid()
    ensures var d := DeleteRule(old(db.keywords), id);
      && (d.Err? ==> r == Err(d.error) && db.keywords == old(db.keywords))
      && (d.Ok? ==> r.Ok? && db.keywords == d.value)
    ensures db.articles == old(db.articles) && db.nextArticleId == old(db.nextArticleId) && db.sources == old(db.sources)
    ensures db.webhookConfig == old(db.webhookConfig) && db.aiSettings == old(db.aiSettings)
    ensures db.aiFilterConfig == old(db.aiFilterConfig)
  {
    DeleteRuleSpec(db.keywords, id);
    var found := FindRule(db.keywords, id);
    if found.None? {
      return Err(NotFound(KEYWORD_NOT_FOUND));
    }
    var i := found.value;
    db.keywords := db.keywords[..i] + db.keywords[i + 1..];
    r := Ok(());
  }

  /** `toggle_keyword`. */
  method ToggleKeyword(db: Db, id: int) returns (r: Result<KeywordRule, HttpError>)
    requires db.Valid()
    modifies db
    ensures db.Valid()
    ensures var t := ToggleRule(old(db.keywords), id);
      && (t.Err? ==> r == Err(t.error) && db.keywords == old(db.keywords))
      && (t.Ok? ==> db.keywords == t.value && r.Ok? && r.value.id == id && r.value in db.keywords)
    ensures db.articles == old(db.articles) && db.nextArticleId == old(db.nextArticleId) && db.sources == old(db.sources)
    ensures db.webhookConfig == old(db.webhookConfig) && db.aiSettings == old(db.aiSettings)
    ensures db.aiFilterConfig == old(db.aiFilterConfig)
  {
    var found := FindRule(db.keywords, id);
    if found.None? {
      return Err(NotFound(KEYWORD_NOT_FOUND));
    }
    var i := found.value;
    var row := db.keywords[i].(enabled := !db.keywords[i].enabled);
    ReplaceAtOk(db.keywords, i, row);
    db.keywords := db.keywords[i := row];
    assert db.keywords[i] == row;
    r := Ok(row);
  }

  /** `bulk_delete_keywords`: the loaded rows are deleted one by one and
      counted. */
  method BulkDeleteKeywords(db: Db, ids: seq<int>) returns (deleted: nat)
    requires db.Valid()
    modifies db
    ensures db.Valid()
    ensures db.keywords == Unlisted(old(db.keywords), ids)
    ensures deleted == ListedCount(old(db.keywords), ids) == |old(db.keywords)| - |db.keywords|
    ensures db.articles == old(db.articles) && db.nextArticleId == old(db.nextArticleId) && db.sources == old(db.sources)
    ensures db.webhookConfig == old(db.webhookConfig) && db.aiSettings == old(db.aiSettings)
    ensures db.aiFilterConfig == old(db.aiFilterConfig)
  {
    BulkDeleteSpec(db.keywords, ids);
    var kept;
    kept, deleted := DeleteListed(db.keywords, ids);
    db.keywords := kept;
  }

  /** The loop of `bulk_delete_keywords` over the table: the rows it keeps
      and the number it deletes. */
  method DeleteListed(ks: seq<KeywordRule>, ids: seq<int>) returns (kept: seq<KeywordRule>, deleted: nat)
    ensures kept == Unlisted(ks, ids) && deleted == ListedCount(ks, ids)
  {
    kept := [];
    deleted := 0;
    var j := 0;
    while j < |ks|
      invariant 0 <= j <= |ks|
      invariant kept == Unlisted(ks[..j], ids)
      invariant deleted == ListedCount(ks[..j], ids)
    {
      assert ks[..j + 1][..j] == ks[..j];
      if ks[j].id in ids {
        deleted := deleted + 1;
      } else {
        kept := kept + [ks[j]];
      }
      j := j + 1;
    }
    assert ks[..j] == ks;
  }
}
