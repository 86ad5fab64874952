/**
 * Category resolution. scraper3.py pools candidates (title keywords,
 * sidebar tags, breadcrumbs, JSON-LD) and keeps the first that survives a
 * place-name filter; all_scraper.py keeps every candidate, de-duplicated
 * ignoring case; import.py tries the breadcrumb and then a short chain of
 * title keywords.
 */
module Categories {

  import opened Common
  import opened Text
  import opened JsonValues
  import opened Page

  // ---------------------------------------------------------------- keyword rules

  /** A category label and the keywords that select it. */
  datatype Rule = Rule(name: string, keywords: seq<string>)

  /** Python's `any(k in text for k in keywords)`. */
  predicate Mentions(text: string, keywords: seq<string>) {
    exists k :: 0 <= k < |keywords| && Contains(text, keywords[k])
  }

  /** The label of the first rule, from index `i` on, with a keyword in the text. */
  function FirstRuleFrom(text: string, rules: seq<Rule>, i: nat): Option<string>
    decreases |rules| - i
  {
    if i >= |rules| then None
    else if Mentions(text, rules[i].keywords) then Some(rules[i].name)
    else FirstRuleFrom(text, rules, i + 1)
  }

  /** Rule `k` is the first, from index `i` on, with a keyword in the text. */
  ghost predicate FirstMentionFrom(text: string, rules: seq<Rule>, i: nat, k: int) {
    i <= k < |rules| && Mentions(text, rules[k].keywords) &&
    forall j :: i <= j < k ==> !Mentions(text, rules[j].keywords)
  }

  /**
   * The rule scan finds nothing exactly when no rule has a keyword in the
   * text, and otherwise gives the label of the first rule that has one.
   */
  lemma {:induction false} FirstRuleFromMeaning(text: string, rules: seq<Rule>, i: nat)
    ensures FirstRuleFrom(text, rules, i).None? <==>
      forall k :: i <= k < |rules| ==> !Mentions(text, rules[k].keywords)
    ensures FirstRuleFrom(text, rules, i).Some? ==>
      exists k :: FirstMentionFrom(text, rules, i, k) && FirstRuleFrom(text, rules, i) == Some(rules[k].name)
    ensures forall k :: FirstMentionFrom(text, rules, i, k) ==> FirstRuleFrom(text, rules, i) == Some(rules[k].name)
    decreases |rules| - i
  {
    if i < |rules| {
      FirstRuleFromMeaning(text, rules, i + 1);
      if Mentions(text, rules[i].keywords) {
        assert FirstMentionFrom(text, rules, i, i);
      } else {
        forall k | FirstMentionFrom(text, rules, i, k) ensures FirstMentionFrom(text, rules, i + 1, k) {
        }
        if FirstRuleFrom(text, rules, i).Some? {
          var k :| FirstMentionFrom(text, rules, i + 1, k) && FirstRuleFrom(text, rules, i + 1) == Some(rules[k].name);
          assert FirstMentionFrom(text, rules, i, k);
        }
      }
    }
  }

  // ---------------------------------------------------------------- scraper3.py: title

  /** The labels of `extract_category_from_title`'s table, in its listed order, title-cased. */
  const TitleLabels: seq<string> := [
    "Ventas", "Cocina", "Restaurante", "Administración", "Recursos Humanos", "Contabilidad",
    "Tecnología", "Marketing", "Servicio Al Cliente", "Logística", "Seguridad", "Limpieza",
    "Educación", "Salud", "Construcción", "Diseño"]

  /** The keywords of each label of the table, in the same order. */
  const TitleKeywords: seq<seq<string>> := [
    ["vendedor", "ventas", "comercial", "ejecutivo de cuentas"],
    ["cocina", "cocinero", "chef", "ayudante de cocina", "auxiliar de cocina"],
    ["restaurante", "mesero", "camarero", "barista"],
    ["administrador", "administración", "administrativo", "asistente administrativo"],
    ["recursos humanos", "rrhh", "reclutador"],
    ["contador", "contabilidad", "auditor"],
    ["programador", "desarrollador", "ingeniero de software", "it", "sistemas"],
    ["marketing", "publicidad", "mercadeo", "community manager"],
    ["servicio al cliente", "atención al cliente", "call center"],
    ["logística", "almacén", "bodega", "chofer", "conductor"],
    ["seguridad", "vigilante", "guardia"],
    ["limpieza", "conserje", "mantenimiento"],
    ["profesor", "maestro", "docente", "instructor"],
    ["enfermero", "médico", "doctor", "farmacia"],
    ["construcción", "albañil", "maestro de obra", "soldador"],
    ["diseñador", "diseño gráfico", "diseño web"]]

  /** The table as rules: each label with its keywords. */
  const TitleRules: seq<Rule> := Pair(TitleLabels, TitleKeywords)

  function Pair(names: seq<string>, keywords: seq<seq<string>>): (rules: seq<Rule>)
    requires |names| == |keywords|
    ensures |rules| == |names|
    ensures forall k :: 0 <= k < |rules| ==> rules[k] == Rule(names[k], keywords[k])
  {
    seq(|names|, k requires 0 <= k < |names| => Rule(names[k], keywords[k]))
  }

  /** `extract_category_from_title`: nothing for a missing or empty title. */
  function TitleCategory(title: Option<string>): Option<string> {
    if title.None? || title.value == "" then None
    else FirstRuleFrom(Lower(title.value), TitleRules, 0)
  }

  /**
   * No category for a missing or empty title; otherwise the label of the
   * first table entry with a keyword in the lower-cased title, and nothing
   * when no entry has one.
   */
  lemma TitleCategoryRule(title: string)
    ensures TitleCategory(None) == None && TitleCategory(Some("")) == None
    ensures TitleCategory(Some(title)).None? <==>
      title == "" || forall k :: 0 <= k < |TitleRules| ==> !Mentions(Lower(title), TitleRules[k].keywords)
    ensures forall k :: title != "" && FirstMentionFrom(Lower(title), TitleRules, 0, k) ==>
      TitleCategory(Some(title)) == Some(TitleRules[k].name)
    ensures TitleCategory(Some(title)).Some? ==>
      exists k :: 0 <= k < |TitleRules| && TitleCategory(Some(title)) == Some(TitleRules[k].name)
  {
    FirstRuleFromMeaning(Lower(title), TitleRules, 0);
  }

  /** A seven-letter text without 'b', 'c', 'h', 'm' or 'v' has no keyword of the first five entries. */
  lemma SevenLettersMissFirstRules(l: string)
    requires |l| == 7 && 'b' !in l && 'c' !in l && 'h' !in l && 'm' !in l && 'v' !in l
    ensures forall j :: 0 <= j < 5 ==> !Mentions(l, TitleKeywords[j])
  {
    ExcludedMeaning(l, "vendedor", 'v', 0);
    ExcludedMeaning(l, "ventas", 'v', 0);
    ExcludedMeaning(l, "comercial", 'c', 0);
    ExcludedMeaning(l, "ejecutivo de cuentas", 'c', 0);
    ExcludedMeaning(l, "cocina", 'c', 0);
    ExcludedMeaning(l, "cocinero", 'c', 0);
    ExcludedMeaning(l, "chef", 'c', 0);
    ExcludedMeaning(l, "ayudante de cocina", 'c', 0);
    ExcludedMeaning(l, "auxiliar de cocina", 'c', 0);
    ExcludedMeaning(l, "restaurante", 'c', 0);
    ExcludedMeaning(l, "mesero", 'm', 0);
    ExcludedMeaning(l, "camarero", 'c', 0);
    ExcludedMeaning(l, "barista", 'b', 0);
    ExcludedMeaning(l, "administrador", 'c', 0);
    ExcludedMeaning(l, "administración", 'c', 0);
    ExcludedMeaning(l, "administrativo", 'c', 0);
    ExcludedMeaning(l, "asistente administrativo", 'c', 0);
    ExcludedMeaning(l, "recursos humanos", 'c', 0);
    ExcludedMeaning(l, "rrhh", 'h', 2);
    ExcludedMeaning(l, "reclutador", 'c', 2);
  }

  /** "Auditor" is an accounting title: the sixth entry matches before the 'it' of the seventh. */
  lemma AuditorIsAccounting()
    ensures TitleCategory(Some("Auditor")) == Some("Contabilidad")
  {
    var l := Lower("Auditor");
    assert LowerAvoids("Auditor", {'b', 'c', 'h', 'm', 'v'}, 4);
    LowerLacks("Auditor", {'b', 'c', 'h', 'm', 'v'});
    SevenLettersMissFirstRules(l);
    assert ScanLower("Auditor", "auditor", 0);
    ScanLowerDecides("Auditor", "auditor");
    assert Contains(l, TitleRules[5].keywords[2]);
    assert FirstMentionFrom(l, TitleRules, 0, 5);
    TitleCategoryRule("Auditor");
  }

  // ---------------------------------------------------------------- scraper3.py: sidebar tags

  /** The lower-case phrases that mark a sidebar link as a category tag. */
  const TagTriggers: seq<string> := ["trabajo de", "trabajo en", "empleo de", "empleo en"]

  /** The link text with the four capitalised phrases removed, in the order the source removes them. */
  function RemovePhrases(text: string): string {
    ReplaceAll(ReplaceAll(ReplaceAll(ReplaceAll(text, "Trabajo de", ""), "Trabajo en", ""), "Empleo de", ""), "Empleo en", "")
  }

  /** What one tag link contributes: the stripped first comma piece of its stripped, cleaned text. */
  function TagCategory(text: string): Option<string> {
    if text != "" && Mentions(Lower(text), TagTriggers) then
      var cleaned := Strip(RemovePhrases(text));
      if cleaned != "" then Some(Strip(SplitOn(cleaned, {','})[0])) else None
    else None
  }

  /** `extract_category_from_tags` over the link texts of all tag selectors, in order. */
  function TagCategories(texts: seq<string>): seq<string>
    decreases |texts|
  {
    if texts == [] then []
    else
      var prev := TagCategories(texts[..|texts| - 1]);
      match TagCategory(texts[|texts| - 1])
      case Some(c) => prev + [c]
      case None => prev
  }

  method ExtractTagCategories(texts: seq<string>) returns (categories: seq<string>)
    ensures categories == TagCategories(texts)
  {
    categories := [];
    var i := 0;
    while i < |texts|
      invariant 0 <= i <= |texts|
      invariant categories == TagCategories(texts[..i])
    {
      assert texts[..i + 1][..i] == texts[..i];
      var c := TagCategory(texts[i]);
      if c.Some? {
        categories := categories + [c.value];
      }
      i := i + 1;
    }
    assert texts[..i] == texts;
  }

  /** A stripped piece of a comma split contains no comma. */
  lemma StrippedPieceHasNoComma(cleaned: string)
    ensures ',' !in Strip(SplitOn(cleaned, {','})[0])
  {
    SplitOnPiecesAvoidSeparators(cleaned, {','});
    var piece := SplitOn(cleaned, {','})[0];
    var a, b :| 0 <= a <= b <= |piece| && Strip(piece) == piece[a..b];
    assert forall x :: x in piece[a..b] ==> x in piece;
  }

  /**
   * Every tag category comes, in order, from a link whose lower-cased text
   * has a trigger phrase, is the first comma piece of that text with the
   * capitalised phrases removed, and is stripped and comma-free.
   */
  lemma {:induction false} TagCategoriesShape(texts: seq<string>)
    ensures forall e :: e in TagCategories(texts) ==>
      Stripped(e) && ',' !in e &&
      exists k :: 0 <= k < |texts| && Mentions(Lower(texts[k]), TagTriggers) &&
        e == Strip(SplitOn(Strip(RemovePhrases(texts[k])), {','})[0])
    decreases |texts|
  {
    if texts != [] {
      var pre := texts[..|texts| - 1];
      TagCategoriesShape(pre);
      var last := texts[|texts| - 1];
      forall e | e in TagCategories(texts)
        ensures Stripped(e) && ',' !in e &&
          exists k :: 0 <= k < |texts| && Mentions(Lower(texts[k]), TagTriggers) &&
            e == Strip(SplitOn(Strip(RemovePhrases(texts[k])), {','})[0])
      {
        if e in TagCategories(pre) {
          var k :| 0 <= k < |pre| && Mentions(Lower(pre[k]), TagTriggers) &&
            e == Strip(SplitOn(Strip(RemovePhrases(pre[k])), {','})[0]);
          assert texts[k] == pre[k];
        } else {
          assert TagCategory(last) == Some(e);
          StrippedPieceHasNoComma(Strip(RemovePhrases(last)));
          assert texts[|texts| - 1] == last;
        }
      }
    }
  }

  // ---------------------------------------------------------------- scraper3.py: breadcrumbs

  /** Lower-cased breadcrumb texts that are never categories. */
  const CrumbSkips: seq<string> := ["home", "inicio", "san josé", "san jose", "costa rica"]

  /** Link targets that mark a breadcrumb as a category. */
  const CategoryPaths: seq<string> := ["/categoria/", "/category/", "/ofertas-trabajo/"]

  predicate CategoryCrumb(link: Link) {
    link.text != "" && Lower(link.text) !in CrumbSkips && Mentions(link.href, CategoryPaths)
  }

  /** `extract_category_from_breadcrumbs`: the texts of the category crumbs, in order. */
  function CrumbCategories(links: seq<Link>): seq<string>
    decreases |links|
  {
    if links == [] then []
    else
      var prev := CrumbCategories(links[..|links| - 1]);
      var last := links[|links| - 1];
      if CategoryCrumb(last) then prev + [last.text] else prev
  }

  method ExtractBreadcrumbCategories(links: seq<Link>) returns (categories: seq<string>)
    ensures categories == CrumbCategories(links)
  {
    categories := [];
    var i := 0;
    while i < |links|
      invariant 0 <= i <= |links|
      invariant categories == CrumbCategories(links[..i])
    {
      assert links[..i + 1][..i] == links[..i];
      if CategoryCrumb(links[i]) {
        categories := categories + [links[i].text];
      }
      i := i + 1;
    }
    assert links[..i] == links;
  }

  /** A text is a breadcrumb category exactly when some category crumb carries it. */
  lemma {:induction false} CrumbCategoriesMembers(links: seq<Link>, t: string)
    ensures t in CrumbCategories(links) <==> exists k :: 0 <= k < |links| && CategoryCrumb(links[k]) && links[k].text == t
    decreases |links|
  {
    if links != [] {
      var pre := links[..|links| - 1];
      CrumbCategoriesMembers(pre, t);
      if exists k :: 0 <= k < |links| && CategoryCrumb(links[k]) && links[k].text == t {
        var k :| 0 <= k < |links| && CategoryCrumb(links[k]) && links[k].text == t;
        if k < |pre| {
          assert pre[k] == links[k];
        }
      }
      if exists k :: 0 <= k < |pre| && CategoryCrumb(pre[k]) && pre[k].text == t {
        var k :| 0 <= k < |pre| && CategoryCrumb(pre[k]) && pre[k].text == t;
        assert links[k] == pre[k];
      }
    }
  }

  // ---------------------------------------------------------------- scraper3.py: the pool and the pick

  /** The place names a scraper3.py category may neither be nor contain. */
  const Gazetteer: seq<string> := [
    "san josé", "san jose", "costa rica", "inicio", "home",
    "alajuela", "cartago", "heredia", "guanacaste", "puntarenas", "limón",
    "santa ana", "escazú", "curridabat", "desamparados", "tibás",
    "san pedro", "san francisco", "guadalupe", "moravia", "pavas",
    "goicoechea", "montes de oca", "san rafael", "san antonio",
    "pozos", "hatillo", "coronado", "santo domingo", "barva"]

  /** The category candidates of one ld+json block: truthy `occupationalCategory`, then truthy `industry`. */
  function LdCandidates(script: LdScript): seq<Json> {
    if script.text.None? || script.text.value == "" || script.parsed.None? || !script.parsed.value.JObj? then []
    else
      var ms := script.parsed.value.members;
      var occ := GetOr(ms, "occupationalCategory", JStr(""));
      var ind := GetOr(ms, "industry", JStr(""));
      (if Truthy(occ) then [occ] else []) + (if Truthy(ind) then [ind] else [])
  }

  /** The tags that are not place names (the gazetteer is already lower case). */
  function NonPlaceTags(tags: seq<string>): seq<string>
    decreases |tags|
  {
    if tags == [] then []
    else
      var prev := NonPlaceTags(tags[..|tags| - 1]);
      var t := tags[|tags| - 1];
      if Lower(t) !in Gazetteer then prev + [t] else prev
  }

  function AllLdCandidates(scripts: seq<LdScript>): seq<Json>
    decreases |scripts|
  {
    if scripts == [] then []
    else AllLdCandidates(scripts[..|scripts| - 1]) + LdCandidates(scripts[|scripts| - 1])
  }

  function Strings(ts: seq<string>): seq<Json> {
    seq(|ts|, i requires 0 <= i < |ts| => JStr(ts[i]))
  }

  /** The pooled candidates in source order: title, non-place tags, breadcrumbs, JSON-LD. */
  function Pool(titleCat: Option<string>, tags: seq<string>, crumbs: seq<string>, scripts: seq<LdScript>): seq<Json> {
    (if titleCat.Some? then [JStr(titleCat.value)] else [])
    + Strings(NonPlaceTags(tags)) + Strings(crumbs) + AllLdCandidates(scripts)
  }

  /** The loops that fill `all_categories`. */
  method BuildPool(titleCat: Option<string>, tags: seq<string>, crumbs: seq<string>, scripts: seq<LdScript>)
    returns (pool: seq<Json>)
    ensures pool == Pool(titleCat, tags, crumbs, scripts)
  {
    pool := if titleCat.Some? then [JStr(titleCat.value)] else [];
    var fromTags := KeepNonPlaceTags(tags);
    var fromScripts := CollectLdCandidates(scripts);
    pool := pool + fromTags + Strings(crumbs) + fromScripts;
  }

  /** The tag loop: every tag that is not a place name, in order. */
  method KeepNonPlaceTags(tags: seq<string>) returns (kept: seq<Json>)
    ensures kept == Strings(NonPlaceTags(tags))
  {
    kept := [];
    var i := 0;
    while i < |tags|
      invariant 0 <= i <= |tags|
      invariant kept == Strings(NonPlaceTags(tags[..i]))
    {
      assert tags[..i + 1][..i] == tags[..i];
      if Lower(tags[i]) !in Gazetteer {
        kept := kept + [JStr(tags[i])];
      }
      i := i + 1;
    }
    assert tags[..i] == tags;
  }

  /** The JSON-LD loop: the candidates of every block, in order. */
  method CollectLdCandidates(scripts: seq<LdScript>) returns (found: seq<Json>)
    ensures found == AllLdCandidates(scripts)
  {
    found := [];
    var i := 0;
    while i < |scripts|
      invariant 0 <= i <= |scripts|
      invariant found == AllLdCandidates(scripts[..i])
    {
      assert scripts[..i + 1][..i] == scripts[..i];
      found := found + LdCandidates(scripts[i]);
      i := i + 1;
    }
    assert scripts[..i] == scripts;
  }

  /** A candidate as the pick loop cleans it: whitespace collapsed, stripped, cut at the first comma. */
  function CleanCandidate(s: string): string {
    var c := Squash(s);
    if ',' in c then Strip(SplitOn(c, {','})[0]) else c
  }

  /** The cleaned candidate is neither a place name nor contains one, and has at least three characters. */
  predicate Acceptable(c: string) {
    Lower(c) !in Gazetteer && !Mentions(Lower(c), Gazetteer) && |c| >= 3
  }

  /** Every pooled candidate as the pick loop sees it: `str()` of the value, cleaned. */
  function Cleaned(pool: seq<Json>): (cs: seq<string>)
    ensures |cs| == |pool|
    ensures forall k :: 0 <= k < |pool| ==> cs[k] == CleanCandidate(PyStr(pool[k]))
  {
    seq(|pool|, k requires 0 <= k < |pool| => CleanCandidate(PyStr(pool[k])))
  }

  /** The first cleaned candidate that is acceptable. */
  function FirstAcceptable(cs: seq<string>): Option<string>
    decreases |cs|
  {
    if cs == [] then None
    else if Acceptable(cs[0]) then Some(cs[0])
    else FirstAcceptable(cs[1..])
  }

  /** The pick loop: cleans each candidate in turn and stops at the first acceptable one. */
  method PickCategory(pool: seq<Json>) returns (final: Option<string>)
    ensures final == FirstAcceptable(Cleaned(pool))
  {
    final := None;
    var i := 0;
    while i < |pool|
      invariant 0 <= i <= |pool|
      invariant FirstAcceptable(Cleaned(pool)) == FirstAcceptable(Cleaned(pool)[i..])
    {
      assert Cleaned(pool)[i..][1..] == Cleaned(pool)[i + 1..];
      var cleaned := CleanCandidate(PyStr(pool[i]));
      if Acceptable(cleaned) {
        final := Some(cleaned);
        return;
      }
      i := i + 1;
    }
  }

  /** The cleaned form is stripped and has no comma. */
  lemma CleanCandidateShape(s: string)
    ensures Stripped(CleanCandidate(s)) && ',' !in CleanCandidate(s)
  {
    var c := Squash(s);
    if ',' in c {
      StrippedPieceHasNoComma(c);
    }
  }

  /** Candidate `k` is the first acceptable one. */
  predicate FirstAcceptableAt(cs: seq<string>, k: int) {
    0 <= k < |cs| && Acceptable(cs[k]) &&
    forall j :: 0 <= j < k ==> !Acceptable(cs[j])
  }

  /**
   * The pick finds nothing exactly when no cleaned candidate is acceptable,
   * and otherwise gives the first that is.
   */
  lemma {:induction false} FirstAcceptableMeaning(cs: seq<string>)
    ensures FirstAcceptable(cs).None? <==> forall k :: 0 <= k < |cs| ==> !Acceptable(cs[k])
    ensures FirstAcceptable(cs).Some? ==> exists k :: FirstAcceptableAt(cs, k) && FirstAcceptable(cs) == Some(cs[k])
    decreases |cs|
  {
    if cs != [] {
      var rest := cs[1..];
      FirstAcceptableMeaning(rest);
      if Acceptable(cs[0]) {
        assert FirstAcceptableAt(cs, 0);
      } else {
        assert forall k :: 1 <= k < |cs| ==> cs[k] == rest[k - 1];
        if FirstAcceptable(rest).Some? {
          var k :| FirstAcceptableAt(rest, k) && FirstAcceptable(rest) == Some(rest[k]);
          assert FirstAcceptableAt(cs, k + 1);
        }
      }
    }
  }

  /**
   * The final category of scraper3.py: when there is one, it is the cleaned
   * form of the first pooled candidate that passes, and it is stripped,
   * comma-free, at least three characters long and free of place names.
   */
  lemma FinalCategoryShape(pool: seq<Json>)
    ensures FirstAcceptable(Cleaned(pool)).None? <==>
      forall k :: 0 <= k < |pool| ==> !Acceptable(CleanCandidate(PyStr(pool[k])))
    ensures FirstAcceptable(Cleaned(pool)).Some? ==>
      var c := FirstAcceptable(Cleaned(pool)).value;
      Stripped(c) && ',' !in c && |c| >= 3 && !Mentions(Lower(c), Gazetteer) && Lower(c) !in Gazetteer &&
      exists k :: 0 <= k < |pool| && c == CleanCandidate(PyStr(pool[k])) &&
        forall j :: 0 <= j < k ==> !Acceptable(CleanCandidate(PyStr(pool[j])))
  {
    var cs := Cleaned(pool);
    FirstAcceptableMeaning(cs);
    if FirstAcceptable(cs).Some? {
      var k :| FirstAcceptableAt(cs, k) && FirstAcceptable(cs) == Some(cs[k]);
      CleanCandidateShape(PyStr(pool[k]));
    }
  }

  /**
   * No gazetteer entry occurs in the text: the entries in four groups of
   * explicit conjuncts, so that each literal entry is checked on its own.
   */
  predicate AvoidsPlaces(l: string) {
    AvoidsPlacesA(l) && AvoidsPlacesB(l) && AvoidsPlacesC(l) && AvoidsPlacesD(l)
  }

  predicate AvoidsPlacesA(l: string) {
    !Contains(l, "san josé") && !Contains(l, "san jose") && !Contains(l, "costa rica") &&
    !Contains(l, "inicio") && !Contains(l, "home") && !Contains(l, "alajuela") &&
    !Contains(l, "cartago") && !Contains(l, "heredia")
  }

  predicate AvoidsPlacesB(l: string) {
    !Contains(l, "guanacaste") && !Contains(l, "puntarenas") && !Contains(l, "limón") &&
    !Contains(l, "santa ana") && !Contains(l, "escazú") && !Contains(l, "curridabat") &&
    !Contains(l, "desamparados") && !Contains(l, "tibás")
  }

  predicate AvoidsPlacesC(l: string) {
    !Contains(l, "san pedro") && !Contains(l, "san francisco") && !Contains(l, "guadalupe") &&
    !Contains(l, "moravia") && !Contains(l, "pavas") && !Contains(l, "goicoechea") &&
    !Contains(l, "montes de oca")
  }

  predicate AvoidsPlacesD(l: string) {
    !Contains(l, "san rafael") && !Contains(l, "san antonio") && !Contains(l, "pozos") &&
    !Contains(l, "hatillo") && !Contains(l, "coronado") && !Contains(l, "santo domingo") &&
    !Contains(l, "barva")
  }

  lemma AvoidsPlacesMeaning(l: string)
    requires AvoidsPlaces(l)
    ensures !Mentions(l, Gazetteer) && l !in Gazetteer
  {
    if l in Gazetteer {
      ContainsSelf(l);
    }
  }

  /** A plain text free of place names is its own cleaned form and is acceptable. */
  lemma PlainLabelAcceptable(s: string)
    requires |s| >= 3 && PlainFrom(s, 0) && AvoidsPlaces(Lower(s))
    ensures CleanCandidate(s) == s && Acceptable(s)
  {
    PlainIsSquashed(s);
    AvoidsPlacesMeaning(Lower(s));
  }
}
