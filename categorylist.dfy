/**
 * Category resolution in all_scraper.py: the breadcrumb texts, the pieces
 * of the keywords meta tag and the tag-link texts are pooled, then kept
 * once each ignoring case, and the survivors are joined with commas.
 */
module CategoryList {

  import opened Common
  import opened Text
  import opened JsonValues
  import opened Schema

  // ---------------------------------------------------------------- the candidates

  /** The texts that are non-empty (`if txt:`), in order. */
  function NonEmpty(texts: seq<string>): (r: seq<string>)
    ensures forall e :: e in r <==> e in texts && e != ""
    decreases |texts|
  {
    if texts == [] then []
    else
      var prev := NonEmpty(texts[..|texts| - 1]);
      var t := texts[|texts| - 1];
      assert texts == texts[..|texts| - 1] + [t];
      if t != "" then prev + [t] else prev
  }

  /** The separators of the keywords split. */
  const KeywordSeparators: set<char> := {',', '|', ';'}

  /** The stripped pieces that are non-empty, in order. */
  function StrippedPieces(pieces: seq<string>): seq<string>
    decreases |pieces|
  {
    if pieces == [] then []
    else
      var prev := StrippedPieces(pieces[..|pieces| - 1]);
      var k := Strip(pieces[|pieces| - 1]);
      if k != "" then prev + [k] else prev
  }

  /** The keywords meta content split on ',', '|' and ';', each piece stripped, empty ones dropped. */
  function KeywordPieces(content: Option<string>): seq<string> {
    if content.None? then [] else StrippedPieces(SplitOn(content.value, KeywordSeparators))
  }

  /**
   * A keyword is exactly a non-empty stripped piece of the split; none is
   * empty, none has whitespace at either end, none holds a separator.
   */
  lemma {:induction false} StrippedPiecesMembers(pieces: seq<string>, e: string)
    ensures e in StrippedPieces(pieces) <==> e != "" && exists k :: 0 <= k < |pieces| && e == Strip(pieces[k])
    ensures e in StrippedPieces(pieces) ==> Stripped(e)
    decreases |pieces|
  {
    if pieces != [] {
      var pre := pieces[..|pieces| - 1];
      StrippedPiecesMembers(pre, e);
      if exists k :: 0 <= k < |pieces| && e == Strip(pieces[k]) {
        var k :| 0 <= k < |pieces| && e == Strip(pieces[k]);
        if k < |pre| {
          assert pre[k] == pieces[k];
        }
      }
      if exists k :: 0 <= k < |pre| && e == Strip(pre[k]) {
        var k :| 0 <= k < |pre| && e == Strip(pre[k]);
        assert pieces[k] == pre[k];
      }
    }
  }

  lemma KeywordPiecesShape(content: string, e: string)
    requires e in KeywordPieces(Some(content))
    ensures e != "" && Stripped(e) && ',' !in e && '|' !in e && ';' !in e
  {
    var pieces := SplitOn(content, KeywordSeparators);
    StrippedPiecesMembers(pieces, e);
    var k :| 0 <= k < |pieces| && e == Strip(pieces[k]);
    SplitOnPiecesAvoidSeparators(content, KeywordSeparators);
    var a, b :| 0 <= a <= b <= |pieces[k]| && e == pieces[k][a..b];
    assert forall x :: x in e ==> x in pieces[k];
  }

  /** The pool in source order: breadcrumbs, keyword pieces, tags. */
  function Candidates(crumbTexts: seq<string>, metaKeywords: Option<string>, tagTexts: seq<string>): seq<string> {
    NonEmpty(crumbTexts) + KeywordPieces(metaKeywords) + NonEmpty(tagTexts)
  }

  // ---------------------------------------------------------------- de-duplication

  /** Each candidate as the loop cleans it: `re.sub(r'\s+', ' ', c).strip()`. */
  function Squashed(cs: seq<string>): (ds: seq<string>)
    ensures |ds| == |cs|
    ensures forall k :: 0 <= k < |cs| ==> ds[k] == Squash(cs[k])
  {
    seq(|cs|, k requires 0 <= k < |cs| => Squash(cs[k]))
  }

  /** Some kept entry equals `x` ignoring case. */
  predicate HasCaseless(seen: seq<string>, x: string) {
    exists i :: 0 <= i < |seen| && Lower(seen[i]) == Lower(x)
  }

  /** The `seen_cats` loop over cleaned candidates: each kept when non-empty and new ignoring case. */
  function Keep(ds: seq<string>): seq<string>
    decreases |ds|
  {
    if ds == [] then []
    else
      var prev := Keep(ds[..|ds| - 1]);
      var d := ds[|ds| - 1];
      if d != "" && !HasCaseless(prev, d) then prev + [d] else prev
  }

  /** The de-duplicated category list. */
  function Dedup(cs: seq<string>): seq<string> {
    Keep(Squashed(cs))
  }

  /** Cleaned candidate `k` is non-empty and no earlier cleaned candidate matches it ignoring case. */
  predicate FirstOfItsKind(ds: seq<string>, k: int)
    requires 0 <= k < |ds|
  {
    ds[k] != "" && forall j :: 0 <= j < k ==> ds[j] == "" || Lower(ds[j]) != Lower(ds[k])
  }

  /** The reference: the cleaned candidates that are first of their kind, in order. */
  function Firsts(ds: seq<string>, n: nat): seq<string>
    requires n <= |ds|
    decreases n
  {
    if n == 0 then []
    else Firsts(ds, n - 1) + (if FirstOfItsKind(ds, n - 1) then [ds[n - 1]] else [])
  }

  /** A kept entry matches `x` ignoring case exactly when some non-empty cleaned candidate does. */
  lemma {:induction false} KeepSeen(ds: seq<string>, x: string)
    ensures HasCaseless(Keep(ds), x) <==> exists j :: 0 <= j < |ds| && ds[j] != "" && Lower(ds[j]) == Lower(x)
    decreases |ds|
  {
    if ds != [] {
      var pre := ds[..|ds| - 1];
      KeepSeen(pre, x);
      var prev := Keep(pre);
      var d := ds[|ds| - 1];
      assert forall j :: 0 <= j < |pre| ==> pre[j] == ds[j];
      if d != "" && !HasCaseless(prev, d) {
        var r := prev + [d];
        assert forall i :: 0 <= i < |prev| ==> r[i] == prev[i];
        if Lower(d) == Lower(x) {
          assert Lower(r[|prev|]) == Lower(x);
        }
        if HasCaseless(r, x) {
          var i :| 0 <= i < |r| && Lower(r[i]) == Lower(x);
          if i < |prev| {
            assert HasCaseless(prev, x);
          }
        }
      } else if d != "" && Lower(d) == Lower(x) {
        KeepSeen(pre, d);
        var j :| 0 <= j < |pre| && pre[j] != "" && Lower(pre[j]) == Lower(d);
        assert ds[j] != "" && Lower(ds[j]) == Lower(x);
      }
    }
  }

  /** The reference on a prefix only looks at the prefix. */
  lemma {:induction false} FirstsPrefix(ds: seq<string>, pre: seq<string>, n: nat)
    requires n <= |pre| <= |ds| && pre == ds[..|pre|]
    ensures Firsts(ds, n) == Firsts(pre, n)
    decreases n
  {
    if n > 0 {
      FirstsPrefix(ds, pre, n - 1);
      assert forall j :: 0 <= j < n ==> pre[j] == ds[j];
      assert FirstOfItsKind(ds, n - 1) == FirstOfItsKind(pre, n - 1);
    }
  }

  /** The loop equals the reference: the first spelling of each entry, in first-seen order. */
  lemma {:induction false} KeepIsFirsts(ds: seq<string>)
    ensures Keep(ds) == Firsts(ds, |ds|)
    decreases |ds|
  {
    if ds != [] {
      var n := |ds|;
      var pre := ds[..n - 1];
      KeepIsFirsts(pre);
      FirstsPrefix(ds, pre, n - 1);
      var d := ds[n - 1];
      KeepSeen(pre, d);
      assert forall j :: 0 <= j < n - 1 ==> pre[j] == ds[j];
    }
  }

  /**
   * Every kept entry is a non-empty cleaned candidate, and no two kept
   * entries are equal ignoring case.
   */
  lemma {:induction false} KeepDistinct(ds: seq<string>)
    ensures forall e :: e in Keep(ds) ==> e != "" && e in ds
    ensures forall i, j :: 0 <= i < j < |Keep(ds)| ==> Lower(Keep(ds)[i]) != Lower(Keep(ds)[j])
    decreases |ds|
  {
    if ds != [] {
      var pre := ds[..|ds| - 1];
      KeepDistinct(pre);
      var prev := Keep(pre);
      var d := ds[|ds| - 1];
      assert forall e :: e in pre ==> e in ds;
      if d != "" && !HasCaseless(prev, d) {
        var r := prev + [d];
        forall i, j | 0 <= i < j < |r| ensures Lower(r[i]) != Lower(r[j]) {
          if j == |prev| {
            assert r[i] == prev[i];
          }
        }
      }
    }
  }

  /**
   * The category list: its entries are non-empty, whitespace-collapsed and
   * stripped cleaned candidates, pairwise different ignoring case; every
   * candidate that cleans to a non-empty text has an entry equal to it
   * ignoring case; and the list is exactly the first spelling of each, in
   * first-seen order.
   */
  lemma DedupProperties(cs: seq<string>)
    ensures forall e :: e in Dedup(cs) ==> e != "" && Squash(e) == e && exists k :: 0 <= k < |cs| && e == Squash(cs[k])
    ensures forall i, j :: 0 <= i < j < |Dedup(cs)| ==> Lower(Dedup(cs)[i]) != Lower(Dedup(cs)[j])
    ensures forall k :: 0 <= k < |cs| && Squash(cs[k]) != "" ==> HasCaseless(Dedup(cs), Squash(cs[k]))
    ensures Dedup(cs) == Firsts(Squashed(cs), |cs|)
  {
    var ds := Squashed(cs);
    KeepDistinct(ds);
    KeepIsFirsts(ds);
    forall e | e in Dedup(cs) ensures Squash(e) == e && exists k :: 0 <= k < |cs| && e == Squash(cs[k]) {
      var k :| 0 <= k < |ds| && ds[k] == e;
      SquashIdempotent(cs[k]);
    }
    forall k | 0 <= k < |cs| && Squash(cs[k]) != "" ensures HasCaseless(Dedup(cs), Squash(cs[k])) {
      KeepSeen(ds, ds[k]);
    }
  }

  // ---------------------------------------------------------------- the loops and the field

  /** A loop appending the non-empty texts to the list. */
  method AppendNonEmpty(acc: seq<string>, texts: seq<string>) returns (r: seq<string>)
    ensures r == acc + NonEmpty(texts)
  {
    r := acc;
    var i := 0;
    while i < |texts|
      invariant 0 <= i <= |texts|
      invariant r == acc + NonEmpty(texts[..i])
    {
      assert texts[..i + 1][..i] == texts[..i];
      if texts[i] != "" {
        r := r + [texts[i]];
      }
      i := i + 1;
    }
    assert texts[..i] == texts;
  }

  /** The keywords loop: each split piece, stripped, appended when non-empty. */
  method AppendKeywords(acc: seq<string>, content: Option<string>) returns (r: seq<string>)
    ensures r == acc + KeywordPieces(content)
  {
    r := acc;
    if content.Some? {
      var pieces := SplitOn(content.value, KeywordSeparators);
      var i := 0;
      while i < |pieces|
        invariant 0 <= i <= |pieces|
        invariant r == acc + StrippedPieces(pieces[..i])
      {
        assert pieces[..i + 1][..i] == pieces[..i];
        var k := Strip(pieces[i]);
        if k != "" {
          r := r + [k];
        }
        i := i + 1;
      }
      assert pieces[..i] == pieces;
    }
  }

  /** `cleaned.lower() in (s.lower() for s in seen_cats)`: a scan that stops at the first match. */
  method SeenCaseless(seen: seq<string>, x: string) returns (found: bool)
    ensures found == HasCaseless(seen, x)
  {
    var lx := Lower(x);
    var j := 0;
    while j < |seen|
      invariant 0 <= j <= |seen|
      invariant forall m :: 0 <= m < j ==> Lower(seen[m]) != lx
    {
      if Lower(seen[j]) == lx {
        return true;
      }
      j := j + 1;
    }
    return false;
  }

  /** The `seen_cats` loop. */
  method DedupLoop(cs: seq<string>) returns (seen: seq<string>)
    ensures seen == Dedup(cs)
  {
    seen := [];
    ghost var ds := Squashed(cs);
    var i := 0;
    while i < |cs|
      invariant 0 <= i <= |cs|
      invariant seen == Keep(ds[..i])
    {
      assert ds[..i + 1][..i] == ds[..i];
      var cleaned := Squash(cs[i]);
      var found := SeenCaseless(seen, cleaned);
      if cleaned != "" && !found {
        seen := seen + [cleaned];
      }
      i := i + 1;
    }
    assert ds[..i] == ds;
  }

  /** The category step of all_scraper.py: the pool, de-duplicated. */
  method CollectCategories(crumbTexts: seq<string>, metaKeywords: Option<string>, tagTexts: seq<string>)
    returns (seen: seq<string>)
    ensures seen == Dedup(Candidates(crumbTexts, metaKeywords, tagTexts))
  {
    var categories := AppendNonEmpty([], crumbTexts);
    categories := AppendKeywords(categories, metaKeywords);
    categories := AppendNonEmpty(categories, tagTexts);
    assert categories == Candidates(crumbTexts, metaKeywords, tagTexts);
    seen := DedupLoop(categories);
  }

  /**
   * The field: the comma-joined list, set only when the list is non-empty.
   * No other key changes, and when no entry holds a comma, splitting the
   * field at commas gives the list back.
   */
  function CategoryField(r: Record, seen: seq<string>): (r': Record)
    ensures r' == r.(category := r'.category)
    ensures seen == [] ==> r' == r
    ensures seen != [] ==> r'.category == JStr(Join(",", seen))
    ensures seen != [] && (forall k :: 0 <= k < |seen| ==> ',' !in seen[k]) ==>
      r'.category.JStr? && SplitOn(r'.category.s, {','}) == seen
  {
    if seen != [] then
      if forall k :: 0 <= k < |seen| ==> ',' !in seen[k] then
        SplitOnJoin(seen, ',');
        assert [','] == ",";
        r.(category := JStr(Join(",", seen)))
      else r.(category := JStr(Join(",", seen)))
    else r
  }
}
