/**
 * The HTML fallbacks: each fills a key from the page when the structured
 * data left it unset, plus the badge flags, the featured image and the
 * apply keys. Shared by the three variants where their code is the same.
 */
module Fallbacks {

  import opened Common
  import opened Text
  import opened Lines
  import opened JsonValues
  import opened Schema
  import opened Page

  // ---------------------------------------------------------------- title and badges

  /** The `h1` text becomes the title when the title is still falsy. */
  function FallbackTitle(r: Record, h1: Option<string>): Record {
    if !Truthy(r.title) && h1.Some? then r.(title := JStr(h1.value)) else r
  }

  /** Each badge flag is raised when its indicator is on the page; none is ever lowered. */
  function Badges(r: Record, premium: bool, filled: bool, urgent: bool): (r': Record)
    ensures r'.featured == (if premium then JBool(true) else r.featured)
    ensures r'.filled == (if filled then JBool(true) else r.filled)
    ensures r'.urgent == (if urgent then JBool(true) else r.urgent)
    ensures r' == r.(featured := r'.featured, filled := r'.filled, urgent := r'.urgent)
  {
    var r1 := if premium then r.(featured := JBool(true)) else r;
    var r2 := if filled then r1.(filled := JBool(true)) else r1;
    if urgent then r2.(urgent := JBool(true)) else r2
  }

  // ---------------------------------------------------------------- description

  /**
   * The description candidates: the selector containers and the wrapper of
   * the siblings after a details heading; the paragraphs wrapper only when
   * neither exists.
   */
  function DescriptionCandidates(p: DetailPage): (cs: seq<string>)
    ensures p.containerTexts == [] && p.siblingsText.None? ==>
      cs == (if p.paragraphsText.Some? then [p.paragraphsText.value] else [])
    ensures p.containerTexts != [] || p.siblingsText.Some? ==>
      cs == p.containerTexts + (if p.siblingsText.Some? then [p.siblingsText.value] else [])
  {
    var primary := p.containerTexts + (if p.siblingsText.Some? then [p.siblingsText.value] else []);
    if primary != [] then primary
    else if p.paragraphsText.Some? then [p.paragraphsText.value]
    else []
  }

  /**
   * The first strictly longest non-empty candidate: None when every
   * candidate is empty.
   */
  function Longest(cs: seq<string>): Option<string>
    decreases |cs|
  {
    if cs == [] then None
    else
      var b := Longest(cs[..|cs| - 1]);
      var c := cs[|cs| - 1];
      if c != "" && |c| > (if b.Some? then |b.value| else 0) then Some(c) else b
  }

  /**
   * Longest finds nothing only when every candidate is empty; otherwise it
   * is a non-empty candidate no other exceeds, and every earlier candidate
   * is strictly shorter.
   */
  lemma {:induction false} LongestIsFirstMaximal(cs: seq<string>)
    ensures Longest(cs).None? <==> forall i :: 0 <= i < |cs| ==> cs[i] == ""
    ensures Longest(cs).Some? ==> FirstMaximal(cs, Longest(cs).value)
    decreases |cs|
  {
    if cs != [] {
      var pre := cs[..|cs| - 1];
      LongestIsFirstMaximal(pre);
      var b := Longest(pre);
      var c := cs[|cs| - 1];
      if c != "" && |c| > (if b.Some? then |b.value| else 0) {
        assert forall i :: 0 <= i < |pre| ==> pre[i] == cs[i];
        if b.Some? {
          var k :| 0 <= k < |pre| && pre[k] == b.value && (forall i :: 0 <= i < |pre| ==> |pre[i]| <= |b.value|);
        }
        assert FirstMaximalAt(cs, c, |cs| - 1);
      } else if b.Some? {
        var k :| FirstMaximalAt(pre, b.value, k);
        assert FirstMaximalAt(cs, b.value, k);
      } else {
        assert forall i :: 0 <= i < |cs| ==> cs[i] == "" by {
          assert forall i :: 0 <= i < |pre| ==> pre[i] == cs[i];
        }
      }
    }
  }

  /** `t` is non-empty, occurs in `cs` at `k`, no candidate is longer, and all before `k` are shorter. */
  predicate FirstMaximalAt(cs: seq<string>, t: string, k: int) {
    t != "" && 0 <= k < |cs| && cs[k] == t &&
    (forall i :: 0 <= i < |cs| ==> |cs[i]| <= |t|) &&
    (forall i :: 0 <= i < k ==> |cs[i]| < |t|)
  }

  ghost predicate FirstMaximal(cs: seq<string>, t: string) {
    exists k :: FirstMaximalAt(cs, t, k)
  }

  /** The candidate loop: keeps the text and length of the best candidate so far. */
  method ChooseLongest(cs: seq<string>) returns (best: Option<string>)
    ensures best == Longest(cs)
  {
    best := None;
    var bestLen := 0;
    var i := 0;
    while i < |cs|
      invariant 0 <= i <= |cs|
      invariant best == Longest(cs[..i])
      invariant bestLen == if best.Some? then |best.value| else 0
    {
      var text := cs[i];
      assert cs[..i + 1][..i] == cs[..i];
      if text != "" && |text| > bestLen {
        bestLen := |text|;
        best := Some(text);
      }
      i := i + 1;
    }
    assert cs[..i] == cs;
  }

  /**
   * The visible description, when the description is still falsy: the
   * longest candidate with its line breaks canonicalised.
   */
  function DescriptionFallback(r: Record, p: DetailPage): Record {
    if Truthy(r.description) then r
    else match Longest(DescriptionCandidates(p))
      case None => r
      case Some(t) => r.(description := JStr(NormalizeNewlines(t)))
  }

  /**
   * The fallback writes only the description, only when it was falsy, and
   * what it writes is the first strictly longest candidate without '\r'.
   */
  lemma DescriptionFallbackChoice(r: Record, p: DetailPage)
    ensures var r' := DescriptionFallback(r, p);
      r' == r.(description := r'.description) &&
      (Truthy(r.description) ==> r' == r) &&
      (r' != r ==> exists t :: Longest(DescriptionCandidates(p)) == Some(t) &&
                     r'.description == JStr(NormalizeNewlines(t)) && '\r' !in r'.description.s)
  {
  }

  /** Ties go to the earlier candidate. */
  lemma LongestTieGoesFirst(a: string, b: string)
    requires a != "" && |a| == |b|
    ensures Longest([a, b]) == Some(a)
  {
    assert [a][..0] == [];
    assert Longest([a]) == Some(a);
    assert [a, b][..1] == [a];
  }

  // ---------------------------------------------------------------- experience

  /**
   * `extract_experience`: the `dd` text when the label, `dt` and `dd` exist
   * and the text is non-empty, else None.
   */
  function ExperienceFromDd(r: Record, dd: Option<string>): (r': Record)
    ensures r' == r.(experience := r'.experience)
    ensures r'.experience == JNull || (r'.experience.JStr? && r'.experience.s != "")
    ensures dd.Some? && dd.value != "" <==> r'.experience != JNull
  {
    r.(experience := if dd.Some? && dd.value != "" then JStr(dd.value) else JNull)
  }

  // ---------------------------------------------------------------- image and apply

  /**
   * The featured image URL: an absolute `http` source as is, a
   * protocol-relative one with "https:", a site-relative one with the base
   * URL; anything else gives nothing.
   */
  function ImageUrl(src: string): (u: Option<string>)
    ensures u.Some? <==> StartsWith(src, "http") || StartsWith(src, "/")
    ensures u.Some? ==> StartsWith(u.value, "http") && |src| <= |u.value| && u.value[|u.value| - |src|..] == src
    ensures StartsWith(src, "http") ==> u == Some(src)
  {
    if StartsWith(src, "http") then Some(src)
    else if StartsWith(src, "//") then Some("https:" + src)
    else if StartsWith(src, "/") then Some(BaseUrl + src)
    else None
  }

  function FeaturedImage(r: Record, src: Option<string>): Record {
    if src.None? then r
    else match ImageUrl(src.value)
      case None => r
      case Some(u) => r.(featuredImage := JStr(u))
  }

  /** The resolution of each prefix form. */
  lemma ImagePrefixes(src: string)
    ensures StartsWith(src, "//") ==> ImageUrl(src) == Some("https:" + src)
    ensures StartsWith(src, "/") && !StartsWith(src, "//") ==> ImageUrl(src) == Some(BaseUrl + src)
    ensures !StartsWith(src, "http") && !StartsWith(src, "/") ==> ImageUrl(src) == None
  {
    if StartsWith(src, "/") {
      StartsWithHead(src, "/");
      if StartsWith(src, "http") {
        StartsWithHead(src, "http");
      }
    }
  }

  lemma StartsWithHead(s: string, p: string)
    requires p != [] && StartsWith(s, p)
    ensures s[0] == p[0]
  {
    assert s[..|p|][0] == s[0];
  }

  /** scraper3.py and all_scraper.py: external apply, the page URL, and max salary mirrors salary. */
  function ApplyExternal(r: Record, url: string): Record {
    r.(applyType := JStr("external"), applyUrl := JStr(url), maxSalary := r.salary)
  }

  /** import.py: URL apply, the page URL, and max salary filled from salary only when it is falsy. */
  function ApplyUrl(r: Record, url: string): Record {
    var r1 := r.(applyType := JStr("url"), applyUrl := JStr(url));
    if Truthy(r1.salary) && !Truthy(r1.maxSalary) then r1.(maxSalary := r1.salary) else r1
  }

  /** What ApplyUrl leaves: the URL apply keys, and max salary changes only when salary is truthy and max salary falsy. */
  lemma ApplyUrlMaxSalary(r: Record, url: string)
    ensures var r' := ApplyUrl(r, url);
      r'.applyType == JStr("url") && r'.applyUrl == JStr(url) &&
      (r'.maxSalary != r.maxSalary <==> Truthy(r.salary) && !Truthy(r.maxSalary) && r.salary != r.maxSalary) &&
      (Truthy(r.salary) ==> Truthy(r'.maxSalary)) &&
      r' == r.(applyType := r'.applyType, applyUrl := r'.applyUrl, maxSalary := r'.maxSalary)
  {
  }
}
